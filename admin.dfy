/**
 * The administration dashboard: three moderation tables held as local state
 * (registered users, events, classified ads), the counters shown above them,
 * and the delete / approve / reject handlers.
 */
module Admin {
  import opened Lists

  datatype User = User(id: int, name: string, email: string, role: string, status: string, joined: string)

  datatype EventRow = EventRow(id: int, title: string, date: string, attendees: int, status: string)

  datatype ClassifiedRow = ClassifiedRow(
    id: int, title: string, author: string, category: string, date: string, status: string)

  const Pending := "Pendiente"
  const Approved := "Aprobado"

  function UserId(u: User): int { u.id }
  function EventId(e: EventRow): int { e.id }
  function ClassifiedId(c: ClassifiedRow): int { c.id }

  /** One row as the approve handler rewrites it: a matching row gets status `Aprobado`. */
  function ApproveRow(c: ClassifiedRow, id: int): ClassifiedRow
  {
    if c.id == id then c.(status := Approved) else c
  }

  /**
   * The approve handler's rewrite of the whole table, row by row: same
   * length; a record with that id gets status `Aprobado` and keeps every
   * other field; every other record is unchanged.
   */
  function Approve(cs: seq<ClassifiedRow>, id: int): (r: seq<ClassifiedRow>)
    ensures |r| == |cs|
    ensures forall i :: 0 <= i < |cs| && cs[i].id == id ==>
      r[i].status == Approved && r[i] == cs[i].(status := r[i].status)
    ensures forall i :: 0 <= i < |cs| && cs[i].id != id ==> r[i] == cs[i]
  {
    if cs == [] then [] else [ApproveRow(cs[0], id)] + Approve(cs[1..], id)
  }

  /** Approving twice is approving once. */
  lemma ApproveIdempotent(cs: seq<ClassifiedRow>, id: int)
    ensures Approve(Approve(cs, id), id) == Approve(cs, id)
  {
  }

  /** Approval never changes the ids in the table, so it keeps them distinct. */
  lemma ApproveKeepsIds(cs: seq<ClassifiedRow>, id: int)
    ensures forall i :: 0 <= i < |cs| ==> Approve(cs, id)[i].id == cs[i].id
    ensures DistinctIds(cs, ClassifiedId) ==> DistinctIds(Approve(cs, id), ClassifiedId)
  {
  }

  /** The buttons the classifieds table offers for a row. */
  datatype ModerationAction = ApproveButton | RejectButton | RemoveButton

  /**
   * A pending row offers approve and reject; an approved row offers only
   * removal; a row with any other status offers nothing.
   */
  function ActionsFor(status: string): (a: set<ModerationAction>)
    ensures ApproveButton in a <==> status == Pending
    ensures RejectButton in a <==> status == Pending
    ensures RemoveButton in a <==> status == Approved
  {
    if status == Pending then {ApproveButton, RejectButton}
    else if status == Approved then {RemoveButton}
    else {}
  }

  /** The handler a button is wired to: both reject and remove run the reject handler. */
  function Moderate(cs: seq<ClassifiedRow>, action: ModerationAction, id: int): (r: seq<ClassifiedRow>)
    ensures action == ApproveButton ==> r == Approve(cs, id) && |r| == |cs|
    ensures action != ApproveButton ==> r == WithoutId(cs, ClassifiedId, id)
    ensures action != ApproveButton ==> forall i :: 0 <= i < |r| ==> r[i].id != id
  {
    match action
    case ApproveButton => Approve(cs, id)
    case RejectButton => WithoutId(cs, ClassifiedId, id)
    case RemoveButton => WithoutId(cs, ClassifiedId, id)
  }

  /** Reject removes the row whatever its status, exactly like the remove button. */
  lemma RejectIgnoresStatus(cs: seq<ClassifiedRow>, id: int)
    ensures Moderate(cs, RejectButton, id) == Moderate(cs, RemoveButton, id)
    ensures forall i :: 0 <= i < |cs| && cs[i].id == id ==> cs[i] !in Moderate(cs, RejectButton, id)
  {
  }

  /** The three list-length counters of the stats grid. */
  datatype Counters = Counters(totalUsers: nat, activeEvents: nat, publishedClassifieds: nat)

  /**
   * Deleting a user lowers "Total Usuarios" by the number of rows carrying
   * that id: by one when ids are distinct and the id is present, by nothing
   * when it is absent.
   */
  lemma DeleteUserCounter(users: seq<User>, id: int)
    requires DistinctIds(users, UserId)
    ensures |WithoutId(users, UserId, id)| <= |users|
    ensures (exists i :: 0 <= i < |users| && users[i].id == id) ==>
      |WithoutId(users, UserId, id)| == |users| - 1
    ensures (forall i :: 0 <= i < |users| ==> users[i].id != id) ==>
      |WithoutId(users, UserId, id)| == |users|
  {
    if exists i :: 0 <= i < |users| && users[i].id == id {
      var i :| 0 <= i < |users| && users[i].id == id;
      CountIdAtMostOne(users, UserId, id);
    }
  }

  /** With distinct ids, at most one row carries a given id. */
  lemma {:induction false} CountIdAtMostOne<T>(s: seq<T>, idOf: T -> int, id: int)
    requires DistinctIds(s, idOf)
    ensures CountId(s, idOf, id) <= 1
  {
    if s != [] {
      assert DistinctIds(s[1..], idOf) by {
        forall i, j | 0 <= i < j < |s[1..]| ensures idOf(s[1..][i]) != idOf(s[1..][j]) {
          assert s[1..][i] == s[i + 1] && s[1..][j] == s[j + 1];
        }
      }
      CountIdAtMostOne(s[1..], idOf, id);
      if idOf(s[0]) == id {
        forall i | 0 <= i < |s[1..]| ensures idOf(s[1..][i]) != id {
          assert s[1..][i] == s[i + 1];
        }
      }
    }
  }

  /** The registered users the dashboard starts with. */
  const InitialUsers: seq<User> := [
    User(1, "Juan Pérez", "juan@email.com", "Usuario", "Activo", "15 Mar 2025"),
    User(2, "María López", "maria@email.com", "Usuario", "Activo", "20 Mar 2025"),
    User(3, "Carlos Martínez", "carlos@email.com", "Usuario", "Inactivo", "10 Feb 2025"),
    User(4, "Ana García", "ana@email.com", "Usuario", "Activo", "5 Abr 2025")
  ]

  /** The events table the dashboard starts with. */
  const InitialEventRows: seq<EventRow> := [
    EventRow(1, "Jornada de Limpieza", "28 Oct 2025", 45, "Programado"),
    EventRow(2, "Reunión Mensual", "2 Nov 2025", 32, "Programado"),
    EventRow(3, "Festival Cultural", "15 Nov 2025", 120, "Programado")
  ]

  /** The classifieds table the dashboard starts with: two approved ads, one pending. */
  const InitialClassifiedRows: seq<ClassifiedRow> := [
    ClassifiedRow(1, "Clases de Guitarra", "Carlos M.", "Servicios", "20 Oct 2025", Approved),
    ClassifiedRow(2, "Vendo Bicicleta", "María L.", "Venta", "22 Oct 2025", Approved),
    ClassifiedRow(3, "Busco Compañero de Trote", "Juan P.", "Otros", "23 Oct 2025", Pending)
  ]

  /**
   * The initial tables hold 4 users, 3 events and 3 ads, each table with
   * distinct ids, and only the last ad is awaiting moderation.
   */
  lemma InitialTablesDistinct()
    ensures |InitialUsers| == 4 && |InitialEventRows| == 3 && |InitialClassifiedRows| == 3
    ensures DistinctIds(InitialUsers, UserId) && DistinctIds(InitialEventRows, EventId)
    ensures DistinctIds(InitialClassifiedRows, ClassifiedId)
    ensures forall i :: 0 <= i < |InitialClassifiedRows| ==>
      (InitialClassifiedRows[i].status == Pending <==> i == 2)
  {
  }

  /** The dashboard component's state cells and handlers. */
  class AdminDashboard {
    var users: seq<User>
    var events: seq<EventRow>
    var classifieds: seq<ClassifiedRow>

    /** The stats grid: one counter per table, each the table's current length. */
    function Stats(): (c: Counters)
      reads this
      ensures c.totalUsers == |users| && c.activeEvents == |events|
      ensures c.publishedClassifieds == |classifieds|
    {
      Counters(|users|, |events|, |classifieds|)
    }

    /** Every table keeps one row per id. */
    ghost predicate Valid()
      reads this
    {
      DistinctIds(users, UserId) && DistinctIds(events, EventId) && DistinctIds(classifieds, ClassifiedId)
    }

    constructor ()
      ensures users == InitialUsers && events == InitialEventRows
      ensures classifieds == InitialClassifiedRows
      ensures Valid()
    {
      users := InitialUsers;
      events := InitialEventRows;
      classifieds := InitialClassifiedRows;
      InitialTablesDistinct();
    }

    /** The user delete button: users without that id, in order; other tables untouched. */
    method DeleteUser(id: int)
      requires Valid()
      modifies this
      ensures users == WithoutId(old(users), UserId, id)
      ensures events == old(events) && classifieds == old(classifieds)
      ensures Valid()
    {
      WithoutIdKeepsDistinctIds(users, UserId, id);
      users := WithoutId(users, UserId, id);
    }

    /** The event delete button: events without that id, in order; other tables untouched. */
    method DeleteEvent(id: int)
      requires Valid()
      modifies this
      ensures events == WithoutId(old(events), EventId, id)
      ensures users == old(users) && classifieds == old(classifieds)
      ensures Valid()
    {
      WithoutIdKeepsDistinctIds(events, EventId, id);
      events := WithoutId(events, EventId, id);
    }

    /** The approve button: the matching row becomes `Aprobado`; nothing else changes. */
    method ApproveClassified(id: int)
      requires Valid()
      modifies this
      ensures classifieds == Approve(old(classifieds), id)
      ensures users == old(users) && events == old(events)
      ensures Valid()
    {
      ApproveKeepsIds(classifieds, id);
      classifieds := Approve(classifieds, id);
    }

    /** The reject and remove buttons: the row with that id is dropped, whatever its status. */
    method RejectClassified(id: int)
      requires Valid()
      modifies this
      ensures classifieds == WithoutId(old(classifieds), ClassifiedId, id)
      ensures users == old(users) && events == old(events)
      ensures Valid()
    {
      WithoutIdKeepsDistinctIds(classifieds, ClassifiedId, id);
      classifieds := WithoutId(classifieds, ClassifiedId, id);
    }
  }
}
