/** The client's filter pass in `locais.js`: the category checkboxes and their
    precedence, the "WC" amenity toggle, the distance slider, `applyFilters`
    and the click handler that keeps the category checkboxes exclusive. */
module Filter {
  import opened Wrappers
  import opened Strings
  import opened Sequences
  import opened Records

  datatype Category = Cultura | Natureza | Praia | Trilho | Merendas

  /** The category checkboxes in the order `applyFilters` tests them; a
      checkbox state `checks` is indexed the same way. */
  const Precedence: seq<Category> := [Cultura, Natureza, Praia, Trilho, Merendas]

  /** The label searched for in `typeicon` and shown as the title. */
  function Name(c: Category): string
  {
    match c
    case Cultura => "Cultura"
    case Natureza => "Natureza"
    case Praia => "Praia"
    case Trilho => "Trilho"
    case Merendas => "Merendas"
  }

  /** Position of a category's checkbox in `Precedence`. */
  function Index(c: Category): (i: nat)
    ensures i < |Precedence| && Precedence[i] == c
  {
    match c
    case Cultura => 0
    case Natureza => 1
    case Praia => 2
    case Trilho => 3
    case Merendas => 4
  }

  /** The category the if/else chain applies: the first checked box in
      precedence order, none when no box is checked. */
  function SelectedCategory(checks: seq<bool>): (c: Option<Category>)
    requires |checks| == |Precedence|
    ensures c.None? <==> forall i :: 0 <= i < |checks| ==> !checks[i]
    ensures c.Some? ==> checks[Index(c.value)]
    ensures c.Some? ==> forall i :: 0 <= i < Index(c.value) ==> !checks[i]
  {
    if checks[0] then Some(Cultura)
    else if checks[1] then Some(Natureza)
    else if checks[2] then Some(Praia)
    else if checks[3] then Some(Trilho)
    else if checks[4] then Some(Merendas)
    else None
  }

  /** The text the pass writes into `#filterTitle`. */
  function Title(category: Option<Category>): string
  {
    match category
    case Some(c) => Name(c)
    case None => "Locais"
  }

  datatype Coord = Coord(latitude: real, longitude: real)

  /** `calculateDistance`, kept abstract: kilometres between two points. */
  type Distance = (Coord, Coord) -> real

  function Position(loc: Location): Coord
  {
    Coord(loc.latitude, loc.longitude)
  }

  /** What one filter pass reads from the page: the applied category, the
      "WC" checkbox, the user's position and the slider value in kilometres. */
  datatype Criteria = Criteria(category: Option<Category>, wcOnly: bool, origin: Coord, maxKm: real)

  function CriteriaOf(checks: seq<bool>, wcChecked: bool, user: Coord, slider: real): Criteria
    requires |checks| == |Precedence|
  {
    Criteria(SelectedCategory(checks), wcChecked, user, slider)
  }

  /** The three tests of a filter pass, as one predicate. */
  predicate Admits(c: Criteria, dist: Distance, loc: Location)
  {
    (c.category.None? || Includes(loc.typeicon, Name(c.category.value))) &&
    (!c.wcOnly || "WC" in loc.types) &&
    dist(c.origin, Position(loc)) <= c.maxKm
  }

  function AdmitsAll(c: Criteria, dist: Distance): Location -> bool
  {
    (loc: Location) => Admits(c, dist, loc)
  }

  /** The callbacks handed to `.filter` by the three steps. */
  function HasCategory(name: string): Location -> bool
  {
    (loc: Location) => Includes(loc.typeicon, name)
  }

  function HasWc(): Location -> bool
  {
    (loc: Location) => "WC" in loc.types
  }

  function WithinKm(dist: Distance, user: Coord, km: real): Location -> bool
  {
    (loc: Location) => dist(user, Position(loc)) <= km
  }

  function Anything(): Location -> bool
  {
    (loc: Location) => true
  }

  /** The category step as one `.filter` callback; a skipped step keeps everything. */
  function CategoryStep(c: Criteria): Location -> bool
  {
    if c.category.None? then Anything() else HasCategory(Name(c.category.value))
  }

  function WcStep(c: Criteria): Location -> bool
  {
    if c.wcOnly then HasWc() else Anything()
  }

  /** The three `.filter` steps in a row keep exactly the locations `Admits` accepts. */
  lemma StepsAreOneFilter(locations: seq<Location>, c: Criteria, dist: Distance)
    ensures Select(Select(Select(locations, CategoryStep(c)), WcStep(c)), WithinKm(dist, c.origin, c.maxKm))
            == Select(locations, AdmitsAll(c, dist))
  {
    var both: Location -> bool := loc => CategoryStep(c)(loc) && WcStep(c)(loc);
    SelectFuse(locations, CategoryStep(c), WcStep(c), both);
    SelectFuse(locations, both, WithinKm(dist, c.origin, c.maxKm), AdmitsAll(c, dist));
  }

  /** `applyFilters`: starts from a copy of the fetched list and narrows it
      step by step; returns the kept locations and the title it sets. */
  method ApplyFilters(locations: seq<Location>, checks: seq<bool>, wcChecked: bool,
                      user: Coord, slider: real, dist: Distance)
    returns (filtered: seq<Location>, title: string)
    requires |checks| == |Precedence|
    ensures title == Title(SelectedCategory(checks))
    ensures filtered == Select(locations, AdmitsAll(CriteriaOf(checks, wcChecked, user, slider), dist))
    ensures IsSubsequence(filtered, locations)
    ensures forall loc :: loc in filtered ==> loc in locations && Admits(CriteriaOf(checks, wcChecked, user, slider), dist, loc)
    ensures forall loc :: loc in locations && Admits(CriteriaOf(checks, wcChecked, user, slider), dist, loc) ==> loc in filtered
  {
    ghost var crit := CriteriaOf(checks, wcChecked, user, slider);
    filtered := locations;
    if checks[0] {
      filtered := Select(filtered, HasCategory("Cultura"));
      title := "Cultura";
    } else if checks[1] {
      filtered := Select(filtered, HasCategory("Natureza"));
      title := "Natureza";
    } else if checks[2] {
      filtered := Select(filtered, HasCategory("Praia"));
      title := "Praia";
    } else if checks[3] {
      filtered := Select(filtered, HasCategory("Trilho"));
      title := "Trilho";
    } else if checks[4] {
      filtered := Select(filtered, HasCategory("Merendas"));
      title := "Merendas";
    } else {
      title := "Locais";
      SelectKeepsAll(locations, Anything());
    }
    assert filtered == Select(locations, CategoryStep(crit));
    if wcChecked {
      filtered := Select(filtered, HasWc());
    } else {
      SelectKeepsAll(filtered, Anything());
    }
    assert filtered == Select(Select(locations, CategoryStep(crit)), WcStep(crit));
    filtered := Select(filtered, WithinKm(dist, user, slider));
    StepsAreOneFilter(locations, crit, dist);
    SelectIsSubsequence(locations, AdmitsAll(crit, dist));
  }

  /** The effect of the `.ctime` click handler: every box other than the
      clicked one is unchecked, the clicked one keeps its state. */
  function Exclusive(boxes: seq<bool>, clicked: nat): seq<bool>
    requires clicked < |boxes|
  {
    seq(|boxes|, j requires 0 <= j < |boxes| => j == clicked && boxes[clicked])
  }

  /** The click handler's loop over the checkboxes, updating them in place. */
  method ClickCheckbox(boxes: array<bool>, clicked: nat)
    requires clicked < boxes.Length
    modifies boxes
    ensures boxes[..] == Exclusive(old(boxes[..]), clicked)
    ensures boxes[clicked] == old(boxes[clicked])
    ensures forall j :: 0 <= j < boxes.Length && j != clicked ==> !boxes[j]
  {
    for j := 0 to boxes.Length
      invariant boxes[clicked] == old(boxes[clicked])
      invariant forall k :: 0 <= k < j && k != clicked ==> !boxes[k]
      invariant forall k :: j <= k < boxes.Length ==> boxes[k] == old(boxes[k])
    {
      if j != clicked {
        boxes[j] := false;
      }
    }
  }

  /** Number of checked boxes. */
  function CheckedCount(boxes: seq<bool>): nat
    decreases |boxes|
  {
    if boxes == [] then 0 else (if boxes[0] then 1 else 0) + CheckedCount(boxes[1..])
  }

  lemma {:induction false} NoneChecked(boxes: seq<bool>)
    requires forall j :: 0 <= j < |boxes| ==> !boxes[j]
    ensures CheckedCount(boxes) == 0
    decreases |boxes|
  {
    if boxes != [] {
      NoneChecked(boxes[1..]);
    }
  }

  lemma {:induction false} OnlyOneMayBeChecked(boxes: seq<bool>, k: nat)
    requires k < |boxes|
    requires forall j :: 0 <= j < |boxes| && j != k ==> !boxes[j]
    ensures CheckedCount(boxes) == if boxes[k] then 1 else 0
    decreases |boxes|
  {
    if k == 0 {
      NoneChecked(boxes[1..]);
    } else {
      OnlyOneMayBeChecked(boxes[1..], k - 1);
    }
  }

  /** After the handler at most one box is checked, and it is the clicked one. */
  lemma ExclusiveAtMostOne(boxes: seq<bool>, clicked: nat)
    requires clicked < |boxes|
    ensures CheckedCount(Exclusive(boxes, clicked)) <= 1
    ensures CheckedCount(Exclusive(boxes, clicked)) == 1 <==> boxes[clicked]
  {
    OnlyOneMayBeChecked(Exclusive(boxes, clicked), clicked);
  }

  /** After the handler, the applied category is the clicked box's, if that
      box is checked, and no category otherwise. */
  lemma ExclusiveSelects(checks: seq<bool>, clicked: nat)
    requires |checks| == |Precedence| && clicked < |checks|
    ensures SelectedCategory(Exclusive(checks, clicked)) == if checks[clicked] then Some(Precedence[clicked]) else None
  {
  }

  /** A click first toggles the box (the browser does this), then runs the handler. */
  function Click(boxes: seq<bool>, clicked: nat): seq<bool>
    requires clicked < |boxes|
  {
    Exclusive(boxes[clicked := !boxes[clicked]], clicked)
  }

  /** Clicking an unchecked category box makes it the applied category and
      the title; clicking the checked one leaves no category applied. So
      clicking Praia and then Natureza leaves only Natureza applied. */
  lemma ClickSelects(checks: seq<bool>, c: Category)
    requires |checks| == |Precedence|
    ensures SelectedCategory(Click(checks, Index(c))) == if checks[Index(c)] then None else Some(c)
    ensures Title(SelectedCategory(Click(checks, Index(c)))) == if checks[Index(c)] then "Locais" else Name(c)
  {
  }
}
