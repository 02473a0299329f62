/**
 * The public events page: a list of community events that an administrator
 * can extend and prune, and one dialog used both to create an event and,
 * nominally, to edit one.
 */
module Events {
  import opened Lists
  import opened Wrappers

  datatype Event = Event(
    id: int, title: string, description: string, date: string, time: string,
    location: string, image: string, attendees: int)

  /** The fields the event form submits. */
  datatype EventForm = EventForm(
    title: string, description: string, date: string, time: string, location: string)

  const DefaultImage :=
    "https://images.unsplash.com/photo-1614447912305-2084b1cc2821?crop=entropy&cs=tinysrgb&fit=max&fm=jpg&ixid=M3w3Nzg4Nzd8MHwxfHNlYXJjaHwxfHxjb21tdW5pdHklMjBib2FyZHxlbnwxfHx8fDE3NjEyNzczMTh8MA&ixlib=rb-4.1.0&q=80&w=1080"

  function EventId(e: Event): int { e.id }

  /** The list after create: the new event, with id `length + 1` and no attendees yet, at the end. */
  function Appended(events: seq<Event>, form: EventForm): (r: seq<Event>)
    ensures |r| == |events| + 1 && r[..|events|] == events
    ensures r[|events|].id == |events| + 1 && r[|events|].attendees == 0
    ensures r[|events|].title == form.title && r[|events|].description == form.description
    ensures r[|events|].date == form.date && r[|events|].time == form.time
    ensures r[|events|].location == form.location && r[|events|].image == DefaultImage
  {
    events + [Event(|events| + 1, form.title, form.description, form.date, form.time,
                    form.location, DefaultImage, 0)]
  }

  /** The form as the edit dialog pre-fills it: every form field shows the event's own value. */
  function Prefill(e: Event): (f: EventForm)
    ensures f.title == e.title && f.description == e.description
    ensures f.date == e.date && f.time == e.time && f.location == e.location
  {
    EventForm(e.title, e.description, e.date, e.time, e.location)
  }

  /**
   * Submitting the pre-filled edit form does not update the edited event: it
   * appends a copy under a fresh `length + 1` id with no attendees, and every
   * existing event, the edited one included, stays where and as it was.
   */
  lemma EditSubmitAppendsCopy(events: seq<Event>, k: nat)
    requires k < |events|
    ensures var r := Appended(events, Prefill(events[k]));
      r[k] == events[k] && |r| == |events| + 1
      && r[|events|] == events[k].(id := |events| + 1, image := DefaultImage, attendees := 0)
  {
  }

  /** The three events the page starts with. */
  const InitialEvents: seq<Event> := [
    Event(1, "Jornada de Limpieza Comunitaria",
      "Únete a la limpieza de nuestros espacios públicos. Trae guantes y bolsas de basura.",
      "28 de Octubre, 2025", "8:00 AM", "Parque Central",
      "https://images.unsplash.com/photo-1710696916697-f8c8c45b68e2?crop=entropy&cs=tinysrgb&fit=max&fm=jpg&ixid=M3w3Nzg4Nzd8MHwxfHNlYXJjaHwxfHxuZWlnaGJvcmhvb2QlMjBwYXJrfGVufDF8fHx8MTc2MTIwODY4N3ww&ixlib=rb-4.1.0&q=80&w=1080",
      45),
    Event(2, "Reunión Mensual de Vecinos",
      "Reunión mensual para discutir asuntos de la comunidad y próximos proyectos.",
      "2 de Noviembre, 2025", "6:00 PM", "Salón Comunal",
      "https://images.unsplash.com/photo-1759753972050-839775c071e3?crop=entropy&cs=tinysrgb&fit=max&fm=jpg&ixid=M3w3Nzg4Nzd8MHwxfHNlYXJjaHwxfHxjb21tdW5pdHklMjBtZWV0aW5nJTIwcGVvcGxlfGVufDF8fHx8MTc2MTE4MjQ5OXww&ixlib=rb-4.1.0&q=80&w=1080",
      32),
    Event(3, "Festival Cultural Comunitario",
      "Celebremos nuestra diversidad cultural con música, comida y actividades para toda la familia.",
      "15 de Noviembre, 2025", "10:00 AM", "Plaza Principal",
      "https://images.unsplash.com/photo-1758610840977-8ee55513281c?crop=entropy&cs=tinysrgb&fit=max&fm=jpg&ixid=M3w3Nzg4Nzd8MHwxfHNlYXJjaHwxfHxjb21tdW5pdHklMjBldmVudCUyMGdhdGhlcmluZ3xlbnwxfHx8fDE3NjExNjY2OTR8MA&ixlib=rb-4.1.0&q=80&w=1080",
      120)
  ]

  /**
   * The `length + 1` id rule does not keep ids unique: starting from the
   * initial events (ids 1, 2, 3), deleting event 1 and then creating one
   * leaves two events with id 3.
   */
  lemma DeleteThenCreateDuplicatesId(form: EventForm)
    ensures DistinctIds(InitialEvents, EventId)
    ensures var r := Appended(WithoutId(InitialEvents, EventId, 1), form);
      |r| == 3 && r[1].id == 3 && r[2].id == 3 && !DistinctIds(r, EventId)
  {
    var kept := WithoutId(InitialEvents, EventId, 1);
    KeepIsUnique(InitialEvents[1..], InitialEvents, x => EventId(x) != 1);
    assert kept == InitialEvents[1..];
    var r := Appended(kept, form);
    assert EventId(r[1]) == EventId(r[2]);
  }

  /** The controls the page offers, for the whole page or on each event card. */
  datatype Control = CreateButton | EditButton | DeleteButton | RegisterButton

  /**
   * An administrator gets the create dialog and, on every card, edit and
   * delete; anyone else gets only the register button, which just shows a
   * notification.
   */
  function Controls(isAdmin: bool): (cs: set<Control>)
    ensures CreateButton in cs <==> isAdmin
    ensures EditButton in cs <==> isAdmin
    ensures DeleteButton in cs <==> isAdmin
    ensures RegisterButton in cs <==> !isAdmin
  {
    if isAdmin then {CreateButton, EditButton, DeleteButton} else {RegisterButton}
  }

  /** The events page's state cells and handlers; `isAdmin` is the prop the shell passes. */
  class EventsPage {
    const isAdmin: bool
    var events: seq<Event>
    var isDialogOpen: bool
    var editingEvent: Option<Event>

    constructor (isAdmin: bool)
      ensures this.isAdmin == isAdmin
      ensures events == InitialEvents && !isDialogOpen && editingEvent == None
    {
      this.isAdmin := isAdmin;
      events := InitialEvents;
      isDialogOpen := false;
      editingEvent := None;
    }

    /**
     * The form's only submit handler, whether the dialog was opened for
     * creating or for editing: append and close the dialog.
     */
    method CreateEvent(form: EventForm)
      modifies this
      ensures events == Appended(old(events), form)
      ensures !isDialogOpen && editingEvent == old(editingEvent)
    {
      events := Appended(events, form);
      isDialogOpen := false;
    }

    /** `handleDeleteEvent`: the events without that id, in order. */
    method DeleteEvent(id: int)
      modifies this
      ensures events == WithoutId(old(events), EventId, id)
      ensures isDialogOpen == old(isDialogOpen) && editingEvent == old(editingEvent)
    {
      events := WithoutId(events, EventId, id);
    }

    /** `handleEditEvent`: remember the event and open the dialog; the list is untouched. */
    method EditEvent(e: Event)
      modifies this
      ensures editingEvent == Some(e) && isDialogOpen
      ensures events == old(events)
    {
      editingEvent := Some(e);
      isDialogOpen := true;
    }

    /** The "Crear Evento" trigger: forget any edited event and open the dialog. */
    method OpenCreateDialog()
      modifies this
      ensures editingEvent == None && isDialogOpen
      ensures events == old(events)
    {
      editingEvent := None;
      isDialogOpen := true;
    }

    /** The dialog's cancel button and close callback: the edited event is kept. */
    method CloseDialog()
      modifies this
      ensures !isDialogOpen
      ensures events == old(events) && editingEvent == old(editingEvent)
    {
      isDialogOpen := false;
    }
  }
}
