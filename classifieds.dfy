/**
 * The classified-ads board: a list of ads that only grows (new ads go to the
 * front), a publish dialog, and a browse filter made of a free-text search
 * and a category selector.
 */
module Classifieds {
  import opened Lists

  datatype Classified = Classified(
    id: int, title: string, description: string, category: string, image: string,
    contact: string, email: string, author: string, date: string)

  /** The fields the publish form submits. */
  datatype ClassifiedForm = ClassifiedForm(
    title: string, description: string, category: string, contact: string, email: string)

  /** Categories offered by the form's and the filter's selectors. */
  const Categories: seq<string> := ["Servicios", "Venta", "Compra", "Otros"]

  /** The category selector's "every category" entry. */
  const AllCategories := "all"

  const DefaultImage :=
    "https://images.unsplash.com/photo-1614447912305-2084b1cc2821?crop=entropy&cs=tinysrgb&fit=max&fm=jpg&ixid=M3w3Nzg4Nzd8MHwxfHNlYXJjaHwxfHxjb21tdW5pdHklMjBib2FyZHxlbnwxfHx8fDE3NjEyNzczMTh8MA&ixlib=rb-4.1.0&q=80&w=1080"

  const DefaultColor := "bg-gray-500 text-white"

  // ---------------------------------------------------------------- text

  /** Lower-casing of one character (ASCII letters only). */
  function LowerChar(c: char): char
  {
    if 'A' <= c <= 'Z' then (c as int + 32) as char else c
  }

  /** Lower-casing of a string, character by character. */
  function Lower(s: string): (r: string)
    ensures |r| == |s|
    ensures forall i :: 0 <= i < |s| ==> r[i] == LowerChar(s[i])
  {
    if s == [] then [] else [LowerChar(s[0])] + Lower(s[1..])
  }

  /** Lowering an already lowered string changes nothing. */
  lemma LowerIdempotent(s: string)
    ensures Lower(Lower(s)) == Lower(s)
  {
  }

  /** `sub` occurs in `s` starting at position `i`. */
  predicate OccursAt(s: string, sub: string, i: int)
  {
    0 <= i <= |s| - |sub| && s[i..i + |sub|] == sub
  }

  /** Substring test: `sub` occurs in `s` at some position. */
  function Includes(s: string, sub: string): (b: bool)
    ensures b <==> exists i :: OccursAt(s, sub, i)
  {
    if sub <= s then
      assert OccursAt(s, sub, 0);
      true
    else if |s| <= |sub| then
      assert forall i :: OccursAt(s, sub, i) ==> i == 0;
      false
    else
      var b := Includes(s[1..], sub);
      assert forall i :: OccursAt(s[1..], sub, i) <==> OccursAt(s, sub, i + 1) by {
        forall i ensures OccursAt(s[1..], sub, i) <==> OccursAt(s, sub, i + 1) {
          if 0 <= i <= |s[1..]| - |sub| {
            assert s[1..][i..i + |sub|] == s[i + 1..i + 1 + |sub|];
          }
        }
      }
      assert !OccursAt(s, sub, 0);
      assert forall i :: OccursAt(s, sub, i) ==> OccursAt(s[1..], sub, i - 1);
      b
  }

  /** The empty search string occurs in every text. */
  lemma EmptyIncludedEverywhere(s: string)
    ensures Includes(s, "")
  {
  }

  // ---------------------------------------------------------------- filter

  /**
   * One ad passes the browse filter iff the lowered search text occurs in its
   * lowered title or lowered description, and the category selector is `all`
   * or names the ad's category.
   */
  predicate Matches(c: Classified, searchTerm: string, filterCategory: string)
  {
    var needle := Lower(searchTerm);
    (Includes(Lower(c.title), needle) || Includes(Lower(c.description), needle))
    && (filterCategory == AllCategories || c.category == filterCategory)
  }

  /** The browse result: the ads passing the filter, in board order. */
  function Filtered(cs: seq<Classified>, searchTerm: string, filterCategory: string): (r: seq<Classified>)
    ensures IsSubsequence(r, cs)
    ensures forall i :: 0 <= i < |r| ==> Matches(r[i], searchTerm, filterCategory)
    ensures forall i :: 0 <= i < |cs| ==> (cs[i] in r <==> Matches(cs[i], searchTerm, filterCategory))
    ensures |r| == Count(cs, c => Matches(c, searchTerm, filterCategory))
  {
    Keep(cs, c => Matches(c, searchTerm, filterCategory))
  }

  /** With an empty search and the `all` category the whole board is shown. */
  lemma DefaultFilterShowsAll(cs: seq<Classified>)
    ensures Filtered(cs, "", AllCategories) == cs
  {
    forall i | 0 <= i < |cs| ensures Matches(cs[i], "", AllCategories) {
      EmptyIncludedEverywhere(Lower(cs[i].title));
    }
    KeepAllIsIdentity(cs, c => Matches(c, "", AllCategories));
  }

  /** Letter case in the search text does not matter. */
  lemma SearchIgnoresCase(cs: seq<Classified>, searchTerm: string, filterCategory: string)
    ensures Filtered(cs, Lower(searchTerm), filterCategory) == Filtered(cs, searchTerm, filterCategory)
  {
    LowerIdempotent(searchTerm);
    KeepCongruent(cs, c => Matches(c, Lower(searchTerm), filterCategory), c => Matches(c, searchTerm, filterCategory));
  }

  /** Category colour classes of the four known categories. */
  const CategoryColors: map<string, string> := map[
    "Servicios" := "bg-[#007B3E] text-white",
    "Venta" := "bg-[#004E92] text-white",
    "Compra" := "bg-purple-500 text-white",
    "Otros" := "bg-gray-500 text-white"
  ]

  /**
   * The colour lookup: a known category has a non-empty entry, so the
   * fallback does not apply; every other category falls back to gray.
   */
  function CategoryColor(category: string): (color: string)
    ensures category in CategoryColors ==> color == CategoryColors[category]
    ensures category !in CategoryColors ==> color == DefaultColor
    ensures color != ""
  {
    var looked := if category in CategoryColors then CategoryColors[category] else "";
    if looked != "" then looked else DefaultColor
  }

  /** Every category the form offers has an entry of its own. */
  lemma EveryOfferedCategoryHasColor()
    ensures forall i :: 0 <= i < |Categories| ==> Categories[i] in CategoryColors
  {
  }

  // ---------------------------------------------------------------- ids

  /** The set of ids carried by the ads of `cs`. */
  function Ids(cs: seq<Classified>): (ids: set<int>)
    ensures forall i :: 0 <= i < |cs| ==> cs[i].id in ids
    ensures forall k :: k in ids ==> exists i :: 0 <= i < |cs| && cs[i].id == k
  {
    if cs == [] then {}
    else
      var rest := Ids(cs[1..]);
      assert forall k :: k in rest ==> exists i :: 1 <= i < |cs| && cs[i].id == k by {
        forall k | k in rest ensures exists i :: 1 <= i < |cs| && cs[i].id == k {
          var j :| 0 <= j < |cs[1..]| && cs[1..][j].id == k;
          assert cs[j + 1].id == k;
        }
      }
      {cs[0].id} + rest
  }

  /** The ids 1..n. */
  function Range(n: nat): (r: set<int>)
    ensures forall k :: k in r <==> 1 <= k <= n
  {
    if n == 0 then {} else Range(n - 1) + {n}
  }

  /** The board's id invariant: ids are pairwise distinct and are exactly 1..length. */
  ghost predicate IdsExact(cs: seq<Classified>)
  {
    DistinctIds(cs, (c: Classified) => c.id) && Ids(cs) == Range(|cs|)
  }

  /** The ad the publish handler builds. */
  function NewClassified(id: int, form: ClassifiedForm, today: string): Classified
  {
    Classified(id, form.title, form.description, form.category, DefaultImage,
               form.contact, form.email, "Usuario", today)
  }

  /** The board after publishing: the new ad, with id `length + 1`, in front of the old board. */
  function Published(cs: seq<Classified>, form: ClassifiedForm, today: string): (r: seq<Classified>)
    ensures |r| == |cs| + 1 && r[1..] == cs
    ensures r[0].id == |cs| + 1 && r[0].author == "Usuario" && r[0].date == today
    ensures r[0].title == form.title && r[0].description == form.description
    ensures r[0].category == form.category && r[0].contact == form.contact && r[0].email == form.email
    ensures r[0].image == DefaultImage
  {
    [NewClassified(|cs| + 1, form, today)] + cs
  }

  /** Publishing keeps the ids exactly 1..length and pairwise distinct. */
  lemma {:induction false} PublishKeepsIdsExact(cs: seq<Classified>, form: ClassifiedForm, today: string)
    requires IdsExact(cs)
    ensures IdsExact(Published(cs, form, today))
  {
    var r := Published(cs, form, today);
    assert r[1..] == cs;
    assert Ids(r) == {r[0].id} + Ids(cs);
    assert Ids(r) == Range(|r|);
    forall i, j | 0 <= i < j < |r| ensures r[i].id != r[j].id {
      assert r[j] == cs[j - 1];
      if i > 0 {
        assert r[i] == cs[i - 1];
      } else {
        assert cs[j - 1].id in Range(|cs|);
      }
    }
  }

  /** The three ads the board starts with. */
  const InitialClassifieds: seq<Classified> := [
    Classified(1, "Clases de Guitarra",
      "Ofrezco clases de guitarra para principiantes y nivel intermedio. Horarios flexibles.",
      "Servicios", DefaultImage, "+57 300 123 4567", "musica@email.com", "Carlos Martínez",
      "20 de Octubre, 2025"),
    Classified(2, "Vendo Bicicleta",
      "Bicicleta de montaña en excelente estado, poco uso. Incluye casco y candado.",
      "Venta",
      "https://images.unsplash.com/photo-1759753972050-839775c071e3?crop=entropy&cs=tinysrgb&fit=max&fm=jpg&ixid=M3w3Nzg4Nzd8MHwxfHNlYXJjaHwxfHxjb21tdW5pdHklMjBtZWV0aW5nJTIwcGVvcGxlfGVufDF8fHx8MTc2MTE4MjQ5OXww&ixlib=rb-4.1.0&q=80&w=1080",
      "+57 300 987 6543", "venta@email.com", "María López",
      "22 de Octubre, 2025"),
    Classified(3, "Busco Compañero de Trote",
      "Busco alguien para trotar en las mañanas por el parque. Horario: 6:00 AM.",
      "Otros",
      "https://images.unsplash.com/photo-1710696916697-f8c8c45b68e2?crop=entropy&cs=tinysrgb&fit=max&fm=jpg&ixid=M3w3Nzg4Nzd8MHwxfHNlYXJjaHwxfHxuZWlnaGJvcmhvb2QlMjBwYXJrfGVufDF8fHx8MTc2MTIwODY4N3ww&ixlib=rb-4.1.0&q=80&w=1080",
      "+57 310 456 7890", "deporte@email.com", "Juan Pérez",
      "23 de Octubre, 2025")
  ]

  /** The initial board satisfies the id invariant. */
  lemma InitialIdsExact()
    ensures IdsExact(InitialClassifieds)
  {
    var cs := InitialClassifieds;
    assert cs[1..][1..][1..] == [];
    assert Ids(cs[1..][1..]) == {3};
    assert Ids(cs[1..]) == {2, 3};
    assert Ids(cs) == {1, 2, 3};
    assert Range(3) == {1, 2, 3};
  }

  /**
   * A freshly published "Test" ad in category "Venta" shows up when the board
   * is filtered by "Venta" and not when it is filtered by "Servicios".
   */
  lemma PublishedAdFoundByCategory(cs: seq<Classified>, form: ClassifiedForm, today: string)
    requires form.title == "Test" && form.category == "Venta"
    ensures Published(cs, form, today)[0] in Filtered(Published(cs, form, today), "", "Venta")
    ensures Published(cs, form, today)[0] !in Filtered(Published(cs, form, today), "", "Servicios")
  {
    var r := Published(cs, form, today);
    EmptyIncludedEverywhere(Lower(r[0].title));
    assert Matches(r[0], "", "Venta");
  }

  /** The classifieds page's state cells and handlers. */
  class ClassifiedsBoard {
    var classifieds: seq<Classified>
    var isDialogOpen: bool
    var searchTerm: string
    var filterCategory: string

    ghost predicate Valid()
      reads this
    {
      IdsExact(classifieds)
    }

    constructor ()
      ensures Valid()
      ensures classifieds == InitialClassifieds && !isDialogOpen
      ensures searchTerm == "" && filterCategory == AllCategories
    {
      classifieds := InitialClassifieds;
      isDialogOpen := false;
      searchTerm := "";
      filterCategory := AllCategories;
      InitialIdsExact();
    }

    /** The ads the page lists: the browse filter for the current search text and category. */
    function Visible(): (r: seq<Classified>)
      reads this
      ensures r == Filtered(classifieds, searchTerm, filterCategory)
      ensures IsSubsequence(r, classifieds)
      ensures searchTerm == "" && filterCategory == AllCategories ==> r == classifieds
    {
      DefaultFilterShowsAll(classifieds);
      Filtered(classifieds, searchTerm, filterCategory)
    }

    /**
     * `handleCreateClassified`: prepend the new ad (id `length + 1`, author
     * `Usuario`, today's date) and close the dialog. `today` stands for the
     * locale-formatted current date.
     */
    method CreateClassified(form: ClassifiedForm, today: string)
      requires Valid()
      modifies this
      ensures classifieds == Published(old(classifieds), form, today)
      ensures !isDialogOpen
      ensures searchTerm == old(searchTerm) && filterCategory == old(filterCategory)
      ensures Valid()
    {
      PublishKeepsIdsExact(classifieds, form, today);
      classifieds := Published(classifieds, form, today);
      isDialogOpen := false;
    }

    /** The dialog's open/close callbacks and its cancel button. */
    method SetDialogOpen(open: bool)
      modifies this
      ensures isDialogOpen == open
      ensures classifieds == old(classifieds)
      ensures searchTerm == old(searchTerm) && filterCategory == old(filterCategory)
    {
      isDialogOpen := open;
    }

    /** The search box's change handler. */
    method SetSearchTerm(text: string)
      modifies this
      ensures searchTerm == text
      ensures classifieds == old(classifieds) && isDialogOpen == old(isDialogOpen)
      ensures filterCategory == old(filterCategory)
    {
      searchTerm := text;
    }

    /** The category selector's change handler. */
    method SetFilterCategory(category: string)
      modifies this
      ensures filterCategory == category
      ensures classifieds == old(classifieds) && isDialogOpen == old(isDialogOpen)
      ensures searchTerm == old(searchTerm)
    {
      filterCategory := category;
    }
  }
}
