/** What `locais.js` shows: the cards of the image grid with their vote
    labels and bars, the results title, and the filter panel's sections. */
module View {
  import opened Wrappers
  import opened Sequences
  import opened Records
  import opened Filter

  /** The like and dislike bar widths of a card (`renderLocations`), in percent. */
  function VotePercentages(likes: nat, dislikes: nat): (p: (real, real))
    ensures likes + dislikes == 0 ==> p == (0.0, 0.0)
    ensures likes + dislikes > 0 ==> 0.0 <= p.0 <= 100.0 && 0.0 <= p.1 <= 100.0
    ensures likes + dislikes > 0 ==> p.0 + p.1 == 100.0
    ensures likes + dislikes > 0 ==> p.0 * (likes + dislikes) as real == 100.0 * likes as real
  {
    var total := likes + dislikes;
    if total == 0 then (0.0, 0.0)
    else ((likes as real / total as real) * 100.0, (dislikes as real / total as real) * 100.0)
  }

  /** One `div.location` of the image grid. The two labels are modelled by
      the number they show ("Likes: n", "Dislikes: n"). */
  datatype Card = Card(dataId: string, src: string, title: string, description: string,
                       likesShown: nat, dislikesShown: nat, likeBar: real, dislikeBar: real)

  function RenderCard(loc: Location): Card
  {
    var bars := VotePercentages(loc.likes, loc.dislikes);
    Card(loc.id, loc.src, loc.title, loc.description, loc.likes, loc.dislikes, bars.0, bars.1)
  }

  function RenderAll(locations: seq<Location>): (cards: seq<Card>)
  {
    seq(|locations|, i requires 0 <= i < |locations| => RenderCard(locations[i]))
  }

  /** `document.querySelector('[data-id="id"]')`: the first card in document order with that id. */
  function FirstCardWith(cards: seq<Card>, id: string): (k: Option<nat>)
    ensures k.None? <==> forall j :: 0 <= j < |cards| ==> cards[j].dataId != id
    ensures k.Some? ==> k.value < |cards| && cards[k.value].dataId == id
    ensures k.Some? ==> forall j :: 0 <= j < k.value ==> cards[j].dataId != id
    decreases |cards|
  {
    if cards == [] then None
    else if cards[0].dataId == id then Some(0)
    else match FirstCardWith(cards[1..], id)
      case None => None
      case Some(k) => Some(k + 1)
  }

  /** The new text of the two labels; the bars are left as they were. */
  function PatchVotes(card: Card, updated: Location): Card
  {
    card.(likesShown := updated.likes, dislikesShown := updated.dislikes)
  }

  /** Rendered cards of locations with distinct ids are found by id. */
  lemma {:induction false} RenderedCardFound(locations: seq<Location>, k: nat)
    requires k < |locations|
    requires forall i, j :: 0 <= i < j < |locations| ==> locations[i].id != locations[j].id
    ensures FirstCardWith(RenderAll(locations), locations[k].id) == Some(k)
  {
    var cards := RenderAll(locations);
    assert cards[k].dataId == locations[k].id;
    assert forall j :: 0 <= j < |cards| && j != k ==> cards[j].dataId != locations[k].id;
  }

  /** The title and image grid of the results area. */
  class ResultsView {
    var title: string
    var cards: seq<Card>

    constructor (initialTitle: string)
      ensures title == initialTitle && cards == []
    {
      title := initialTitle;
      cards := [];
    }

    /** `renderLocations`: clears the grid and appends one card per location. */
    method RenderLocations(locations: seq<Location>)
      modifies this
      ensures cards == RenderAll(locations) && title == old(title)
    {
      cards := [];
      for i := 0 to |locations|
        invariant cards == RenderAll(locations[..i]) && title == old(title)
      {
        cards := cards + [RenderCard(locations[i])];
      }
      assert locations[..|locations|] == locations;
    }

    /** `updateLocationInUI`: patches the labels of the first card whose
        `data-id` is the updated location's id; with no such card nothing
        changes and `found` is false (the source only logs an error). */
    method UpdateLocationInUI(updated: Location) returns (found: bool)
      modifies this
      ensures title == old(title) && |cards| == |old(cards)|
      ensures found == FirstCardWith(old(cards), updated.id).Some?
      ensures !found ==> cards == old(cards)
      ensures found ==> var k := FirstCardWith(old(cards), updated.id).value;
        cards[k] == PatchVotes(old(cards)[k], updated) &&
        forall j :: 0 <= j < |cards| && j != k ==> cards[j] == old(cards)[j]
    {
      var k := FirstCardWith(cards, updated.id);
      found := k.Some?;
      if found {
        cards := cards[k.value := PatchVotes(cards[k.value], updated)];
      }
    }

    /** `filterLocations` once the position fix and the fetch have settled:
        with no fix the error is caught and nothing is re-rendered; otherwise
        `applyFilters` sets the title and renders the kept locations. The
        fetched list is empty when the fetch failed. */
    method FilterLocations(fix: Option<Coord>, fetched: seq<Location>, checks: seq<bool>,
                           wcChecked: bool, slider: real, dist: Distance)
      requires |checks| == |Precedence|
      modifies this
      ensures fix.None? ==> title == old(title) && cards == old(cards)
      ensures fix.Some? ==> title == Title(SelectedCategory(checks))
      ensures fix.Some? ==> cards == RenderAll(Select(fetched, AdmitsAll(CriteriaOf(checks, wcChecked, fix.value, slider), dist)))
    {
      if fix.None? {
        return;
      }
      var kept, heading := ApplyFilters(fetched, checks, wcChecked, fix.value, slider, dist);
      title := heading;
      RenderLocations(kept);
    }

    /** A click on a category checkbox. `boxes` holds the states the
        handler sees, i.e. after the browser has already toggled the
        clicked box; the handler unchecks the other boxes and re-runs
        `applyFilters` on the list and position captured by the last
        successful `filterLocations`. */
    method CategoryClicked(boxes: array<bool>, clicked: nat, fetched: seq<Location>, user: Coord,
                           wcChecked: bool, slider: real, dist: Distance)
      requires boxes.Length == |Precedence| && clicked < boxes.Length
      modifies this, boxes
      ensures boxes[..] == Exclusive(old(boxes[..]), clicked)
      ensures title == if old(boxes[clicked]) then Name(Precedence[clicked]) else "Locais"
      ensures cards == RenderAll(Select(fetched, AdmitsAll(CriteriaOf(boxes[..], wcChecked, user, slider), dist)))
    {
      ghost var before := boxes[..];
      ClickCheckbox(boxes, clicked);
      ExclusiveSelects(before, clicked);
      var kept, heading := ApplyFilters(fetched, boxes[..], wcChecked, user, slider, dist);
      title := heading;
      RenderLocations(kept);
    }
  }

  /** `style.display` of a panel element: "", "block" or "none". */
  datatype Display = Unset | Block | Hidden

  /** The sections `showFilters` shows for a checkbox state, in `Precedence` order. */
  function SectionsFor(checks: seq<bool>): seq<Display>
  {
    seq(|checks|, i requires 0 <= i < |checks| => if checks[i] then Block else Hidden)
  }

  /** After a click and `showFilters`, only the clicked category's section
      can be visible, and it is visible exactly when the click checked it. */
  lemma SectionsAfterClick(checks: seq<bool>, c: Category)
    requires |checks| == |Precedence|
    ensures forall i :: 0 <= i < |checks| ==>
      (SectionsFor(Click(checks, Index(c)))[i] == Block <==> i == Index(c) && !checks[Index(c)])
  {
  }

  /** The filter panel: the `.filtrosall` container, the five category
      sections and the "show results" button. */
  class FilterPanel {
    var container: Display
    var sections: seq<Display>
    var results: Display

    ghost predicate Valid()
      reads this
    {
      |sections| == |Precedence|
    }

    constructor ()
      ensures Valid() && container == Unset && results == Unset
      ensures forall i :: 0 <= i < |sections| ==> sections[i] == Unset
    {
      container := Unset;
      sections := [Unset, Unset, Unset, Unset, Unset];
      results := Unset;
    }

    /** `showFilters`: each section is shown iff its checkbox is checked,
        the results button iff some checkbox is. */
    method ShowFilters(checks: seq<bool>)
      requires Valid() && |checks| == |Precedence|
      modifies this
      ensures Valid() && container == old(container)
      ensures sections == SectionsFor(checks)
      ensures forall c :: sections[Index(c)] == Block <==> checks[Index(c)]
      ensures results == Block <==> exists i :: 0 <= i < |checks| && checks[i]
      ensures results != Unset && forall i :: 0 <= i < |sections| ==> sections[i] != Unset
    {
      sections := sections[Index(Natureza) := if checks[Index(Natureza)] then Block else Hidden];
      sections := sections[Index(Cultura) := if checks[Index(Cultura)] then Block else Hidden];
      sections := sections[Index(Praia) := if checks[Index(Praia)] then Block else Hidden];
      sections := sections[Index(Trilho) := if checks[Index(Trilho)] then Block else Hidden];
      sections := sections[Index(Merendas) := if checks[Index(Merendas)] then Block else Hidden];
      results :=
        if checks[Index(Natureza)] || checks[Index(Cultura)] || checks[Index(Praia)] ||
           checks[Index(Trilho)] || checks[Index(Merendas)]
        then Block else Hidden;
    }

    /** `hideAllFilters`: every section and the results button hidden. */
    method HideAllFilters()
      requires Valid()
      modifies this
      ensures Valid() && container == old(container) && results == Hidden
      ensures forall i :: 0 <= i < |sections| ==> sections[i] == Hidden
    {
      sections := [Hidden, Hidden, Hidden, Hidden, Hidden];
      results := Hidden;
    }

    /** `filterbtn`: a hidden or unstyled container is shown together with
        the sections of the checked boxes; a shown one is hidden with all sections. */
    method FilterButton(checks: seq<bool>)
      requires Valid() && |checks| == |Precedence|
      modifies this
      ensures Valid()
      ensures old(container) != Block ==>
        container == Block && sections == SectionsFor(checks) &&
        results == if exists i :: 0 <= i < |checks| && checks[i] then Block else Hidden
      ensures old(container) == Block ==>
        container == Hidden && results == Hidden &&
        forall i :: 0 <= i < |sections| ==> sections[i] == Hidden
    {
      if container == Hidden || container == Unset {
        container := Block;
        ShowFilters(checks);
      } else {
        container := Hidden;
        HideAllFilters();
      }
    }

    /** `showResults`: hides the container and the results button; the
        sections keep their state. */
    method ShowResults()
      requires Valid()
      modifies this
      ensures Valid() && container == Hidden && results == Hidden && sections == old(sections)
    {
      container := Hidden;
      results := Hidden;
    }
  }

  /** Two presses of the filter button from any state leave the container
      as the second press put it: shown after hidden, hidden after shown. */
  method PressTwice(panel: FilterPanel, checks: seq<bool>)
    requires panel.Valid() && |checks| == |Precedence|
    modifies panel
    ensures panel.Valid()
    ensures old(panel.container) == Block ==> panel.container == Block
    ensures old(panel.container) != Block ==> panel.container == Hidden
  {
    panel.FilterButton(checks);
    panel.FilterButton(checks);
  }
}
