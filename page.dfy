/** The script of the speakers page: the cached list, the filter buttons,
    the search box, the four panels (loading, error, grid, no results), the
    speaker cards and the detail overlay. The rules that pick the visible
    speakers are functions; the page itself is an object whose methods
    change its fields the way the script's functions change its
    module-level variables and the DOM. */
module Page {
  import opened Speakers
  import opened Text
  import Queries
  import Store

  /** The argument of `filterSpeakers`, one per button. */
  datatype FilterKind = All | Public | Closed

  predicate IsPublic(s: Speaker) { !s.isClosedDoor }

  predicate IsClosed(s: Speaker) { s.isClosedDoor }

  /** Which speakers a filter lets through. */
  predicate Admits(f: FilterKind, s: Speaker)
  {
    match f
    case All => true
    case Public => !s.isClosedDoor
    case Closed => s.isClosedDoor
  }

  /** The `switch` on the filter that both `filterSpeakers` and
      `searchSpeakers` start from: a part of the cached list, every member
      of which the filter admits. */
  function Base(all: seq<Speaker>, f: FilterKind): (r: seq<Speaker>)
    ensures |r| <= |all|
    ensures forall i :: 0 <= i < |r| ==> Admits(f, r[i])
  {
    match f
    case All => all
    case Public => Filter(IsPublic, all)
    case Closed => Filter(IsClosed, all)
  }

  /** A present, non-empty text field containing the lowered term. */
  predicate Mentions(field: Option<string>, term: string)
  {
    field.Some? && field.value != "" && Contains(Lower(field.value), term)
  }

  /** The search predicate: the term in the lowered name, or in the lowered
      title, organization or background when that field is truthy. Every
      speaker matches the empty term. */
  predicate Matches(s: Speaker, term: string): (b: bool)
    ensures term == "" ==> b
  {
    EmptyContained(Lower(s.name));
    || Contains(Lower(s.name), term)
    || Mentions(s.title, term)
    || Mentions(s.organization, term)
    || Mentions(s.background, term)
  }

  /** The list the page shows for a filter and an already lowered search
      term: the filter's subset, narrowed by the term unless it is empty.
      The branch for the empty term shows what the search filter would
      show, since every speaker matches the empty term. */
  function Visible(all: seq<Speaker>, f: FilterKind, term: string): (r: seq<Speaker>)
    ensures r == Filter((s: Speaker) => Matches(s, term), Base(all, f))
    ensures |r| <= |all|
    ensures forall i :: 0 <= i < |r| ==> Matches(r[i], term)
  {
    var base := Base(all, f);
    var m := (s: Speaker) => Matches(s, term);
    if term == "" then
      FilterAll(m, base);
      base
    else
      var r := Filter(m, base);
      assert forall i :: 0 <= i < |r| ==> m(r[i]);
      r
  }

  lemma BaseMembers(all: seq<Speaker>, f: FilterKind, x: Speaker)
    ensures x in Base(all, f) <==> x in all && Admits(f, x)
  {
    match f
    case All =>
    case Public => FilterMembers(IsPublic, all, x);
    case Closed => FilterMembers(IsClosed, all, x);
  }

  /** 'public' and 'closed' split the cached list between them. */
  lemma PublicClosedPartition(all: seq<Speaker>)
    ensures multiset(Base(all, Public)) + multiset(Base(all, Closed)) == multiset(all)
    ensures |Base(all, Public)| + |Base(all, Closed)| == |all|
  {
    FilterPartition(IsPublic, IsClosed, all);
  }

  /** A speaker is shown iff it is cached, the filter admits it, and the
      term is empty or the speaker matches it. */
  lemma VisibleMembers(all: seq<Speaker>, f: FilterKind, term: string, x: Speaker)
    ensures x in Visible(all, f, term) <==> x in all && Admits(f, x) && (term == "" || Matches(x, term))
  {
    BaseMembers(all, f, x);
    if term != "" {
      FilterMembers((s: Speaker) => Matches(s, term), Base(all, f), x);
    }
  }

  /** The shown speakers keep the order of the cached list. */
  lemma VisibleKeepsOrder(all: seq<Speaker>, f: FilterKind, term: string)
    ensures Subsequence(Visible(all, f, term), all)
  {
    var p := (s: Speaker) => Matches(s, term);
    match f
    case All =>
      if term != "" { FilterKeepsOrder(p, all); } else { SubsequenceRefl(all); }
    case Public =>
      FilterKeepsOrder(IsPublic, all);
      if term != "" {
        FilterKeepsOrder(p, Filter(IsPublic, all));
        SubsequenceTrans(Visible(all, f, term), Filter(IsPublic, all), all);
      }
    case Closed =>
      FilterKeepsOrder(IsClosed, all);
      if term != "" {
        FilterKeepsOrder(p, Filter(IsClosed, all));
        SubsequenceTrans(Visible(all, f, term), Filter(IsClosed, all), all);
      }
  }

  /** When the closed-door rows are exactly one contiguous run, the
      'closed' filter shows that run and 'public' the rest. */
  lemma ClosedRun(all: seq<Speaker>, lo: int, hi: int)
    requires 0 <= lo <= hi <= |all|
    requires forall i :: 0 <= i < |all| ==> (all[i].isClosedDoor <==> lo <= i < hi)
    ensures Base(all, Closed) == all[lo..hi]
    ensures |Base(all, Public)| == |all| - (hi - lo)
  {
    var a, b, c := all[..lo], all[lo..hi], all[hi..];
    assert all == (a + b) + c;
    forall i | 0 <= i < |a| ensures !IsClosed(a[i]) {
      assert a[i] == all[i];
    }
    forall i | 0 <= i < |b| ensures IsClosed(b[i]) {
      assert b[i] == all[lo + i];
    }
    forall i | 0 <= i < |c| ensures !IsClosed(c[i]) {
      assert c[i] == all[hi + i];
    }
    ClosedMiddle(a, b, c);
    PublicClosedPartition(all);
  }

  /** The 'closed' filter over open rows, then closed rows, then open rows
      keeps the middle part. */
  lemma ClosedMiddle(a: seq<Speaker>, b: seq<Speaker>, c: seq<Speaker>)
    requires forall i :: 0 <= i < |a| ==> !IsClosed(a[i])
    requires forall i :: 0 <= i < |b| ==> IsClosed(b[i])
    requires forall i :: 0 <= i < |c| ==> !IsClosed(c[i])
    ensures Filter(IsClosed, (a + b) + c) == b
  {
    FilterNone(IsClosed, a);
    FilterAll(IsClosed, b);
    FilterNone(IsClosed, c);
    FilterAppend(IsClosed, a, b);
    FilterAppend(IsClosed, a + b, c);
  }

  /** The filters see only which speakers are cached, not their order: two
      orders of the same speakers give the same speakers under each filter. */
  lemma BaseOfPermutation(a: seq<Speaker>, b: seq<Speaker>, f: FilterKind)
    requires multiset(a) == multiset(b)
    ensures multiset(Base(a, f)) == multiset(Base(b, f))
    ensures |Base(a, f)| == |Base(b, f)|
  {
    match f
    case All =>
    case Public => FilterPermutation(IsPublic, a, b);
    case Closed => FilterPermutation(IsClosed, a, b);
    assert |multiset(Base(a, f))| == |multiset(Base(b, f))|;
  }

  /** Filtering then searching is the same as searching then filtering:
      the shown list is the intersection of the two conditions. */
  lemma VisibleCommutes(all: seq<Speaker>, f: FilterKind, term: string)
    ensures Visible(all, f, term) == Base(Filter((s: Speaker) => Matches(s, term), all), f)
  {
    var m := (s: Speaker) => Matches(s, term);
    match f
    case All =>
    case Public =>
      var both := (s: Speaker) => IsPublic(s) && m(s);
      FilterFilter(IsPublic, m, both, all);
      FilterFilter(m, IsPublic, both, all);
    case Closed =>
      var both := (s: Speaker) => IsClosed(s) && m(s);
      FilterFilter(IsClosed, m, both, all);
      FilterFilter(m, IsClosed, both, all);
  }

  /** The number of characters of background a card shows. */
  const PreviewLength := 120

  /** `background.substring(0, 120)`, followed by '...' when the background
      is longer than that. */
  function Preview(b: string): (r: string)
    ensures |b| <= PreviewLength ==> r == b
    ensures |b| > PreviewLength ==> |r| == PreviewLength + 3 && r[..PreviewLength] == b[..PreviewLength] && r[PreviewLength..] == "..."
  {
    var cut := if |b| < PreviewLength then |b| else PreviewLength;
    b[..cut] + (if |b| > PreviewLength then "..." else "")
  }

  /** What one card of the grid shows. */
  datatype Card = Card(
    slug: string,
    name: string,
    closedBadge: bool,
    title: Option<string>,
    organization: Option<string>,
    preview: Option<string>)

  function Truthy(field: Option<string>): Option<string>
  {
    if field.Some? && field.value != "" then field else None
  }

  /** The card of one speaker: it links to the speaker's slug, shows the
      name and the closed-door badge, each optional line exactly when its
      field is present and non-empty, and the background as `Preview` cuts
      it: at most 123 characters, the whole background when that is short. */
  function CardOf(s: Speaker): (c: Card)
    ensures c.slug == s.slug && c.name == s.name && c.closedBadge == s.isClosedDoor
    ensures c.title.Some? <==> s.title.Some? && s.title.value != ""
    ensures c.organization.Some? <==> s.organization.Some? && s.organization.value != ""
    ensures c.preview.Some? <==> s.background.Some? && s.background.value != ""
    ensures c.title.Some? ==> c.title == s.title
    ensures c.organization.Some? ==> c.organization == s.organization
    ensures c.preview.Some? ==> c.preview == Some(Preview(s.background.value))
    ensures c.preview.Some? ==> |c.preview.value| <= PreviewLength + 3
    ensures c.preview.Some? && |s.background.value| <= PreviewLength ==> c.preview == s.background
  {
    var preview := if Truthy(s.background).Some? then Some(Preview(s.background.value)) else None;
    Card(s.slug, s.name, s.isClosedDoor, Truthy(s.title), Truthy(s.organization), preview)
  }

  function Cards(ss: seq<Speaker>): (r: seq<Card>)
    ensures |r| == |ss| && forall i :: 0 <= i < |ss| ==> r[i] == CardOf(ss[i])
  {
    seq(|ss|, i requires 0 <= i < |ss| => CardOf(ss[i]))
  }

  /** A click on a card asks the lookup for the slug the card carries: for
      a shown speaker that is a row of a table with unique slugs, that
      lookup returns exactly that speaker. */
  lemma CardOpensItsSpeaker(t: Store.Table, ss: seq<Speaker>, i: int)
    requires Store.UniqueSlugs(t.rows)
    requires 0 <= i < |ss| && ss[i] in t.rows
    ensures Queries.GetSpeaker(t, Cards(ss)[i].slug) == Queries.GetOk(ss[i])
  {
    var k :| 0 <= k < |t.rows| && t.rows[k] == ss[i];
    Queries.GetSpeakerIsTheRow(t, ss[i].slug, k);
  }

  /** The script's state and the parts of the document it toggles. */
  class SpeakerPage {
    var allSpeakers: seq<Speaker>
    var filteredSpeakers: seq<Speaker>
    var currentFilter: FilterKind
    /** The text in the search box, as the user last left it. */
    var searchValue: string
    /** Panels without the `hidden` class. */
    var loadingShown: bool
    var errorShown: bool
    var gridShown: bool
    var noResultsShown: bool
    /** `#speaker-count`; None while it still reads "Loading...". */
    var speakerCount: Option<nat>
    /** The grid's contents. */
    var cards: seq<Card>
    /** The overlay and the `overflow-hidden` class on the body. */
    var modalOpen: bool
    var scrollLocked: bool
    var modalSpeaker: Option<Speaker>

    /** How many of the four panels are visible. */
    function PanelsShown(): nat
      reads this
    {
      (if loadingShown then 1 else 0) + (if errorShown then 1 else 0) +
      (if gridShown then 1 else 0) + (if noResultsShown then 1 else 0)
    }

    /** The document as served, before the script runs. */
    constructor ()
      ensures allSpeakers == [] && filteredSpeakers == [] && currentFilter == All && searchValue == ""
      ensures loadingShown && !errorShown && !gridShown && !noResultsShown && PanelsShown() == 1
      ensures speakerCount == None && cards == [] && !modalOpen && !scrollLocked && modalSpeaker == None
    {
      allSpeakers, filteredSpeakers, currentFilter, searchValue := [], [], All, "";
      loadingShown, errorShown, gridShown, noResultsShown := true, false, false, false;
      speakerCount, cards := None, [];
      modalOpen, scrollLocked, modalSpeaker := false, false, None;
    }

    /** `displaySpeakers`: hide the loading panel, then show either the grid
        of cards or the no-results panel. The error panel is not touched. */
    method DisplaySpeakers()
      modifies this`loadingShown, this`gridShown, this`noResultsShown, this`cards
      ensures !loadingShown
      ensures noResultsShown <==> filteredSpeakers == []
      ensures gridShown <==> filteredSpeakers != []
      ensures cards == if filteredSpeakers == [] then old(cards) else Cards(filteredSpeakers)
      ensures !errorShown ==> PanelsShown() == 1
    {
      loadingShown := false;
      if |filteredSpeakers| == 0 {
        gridShown := false;
        noResultsShown := true;
        return;
      }
      noResultsShown := false;
      gridShown := true;
      cards := Cards(filteredSpeakers);
    }

    /** `loadSpeakers`, given what the request to `GET /api/speakers`
        produced: the failure shape stands for both an error response and a
        failed request. */
    method LoadSpeakers(response: Queries.ListResponse)
      modifies this`loadingShown, this`errorShown, this`gridShown, this`noResultsShown, this`cards
      modifies this`allSpeakers, this`filteredSpeakers, this`speakerCount
      ensures PanelsShown() == 1 && !loadingShown
      ensures response.ListOk? ==>
        && allSpeakers == response.data && filteredSpeakers == response.data
        && speakerCount == Some(|response.data|)
        && !errorShown && (gridShown <==> response.data != [])
        && cards == if response.data == [] then old(cards) else Cards(response.data)
      ensures response.ListError? ==>
        && errorShown && !gridShown && !noResultsShown
        && allSpeakers == old(allSpeakers) && filteredSpeakers == old(filteredSpeakers)
        && speakerCount == old(speakerCount) && cards == old(cards)
    {
      loadingShown := true;
      errorShown := false;
      gridShown := false;
      noResultsShown := false;
      if response.ListOk? {
        allSpeakers := response.data;
        filteredSpeakers := allSpeakers;
        speakerCount := Some(|allSpeakers|);
        DisplaySpeakers();
      } else {
        loadingShown := false;
        errorShown := true;
      }
    }

    /** `searchSpeakers`: recompute the shown list from the cache, the
        current filter and the lowered search text, then display it. */
    method SearchSpeakers()
      modifies this`loadingShown, this`gridShown, this`noResultsShown, this`cards, this`filteredSpeakers
      ensures filteredSpeakers == Visible(allSpeakers, currentFilter, Lower(searchValue))
      ensures !loadingShown && (noResultsShown <==> filteredSpeakers == []) && (gridShown <==> filteredSpeakers != [])
      ensures cards == if filteredSpeakers == [] then old(cards) else Cards(filteredSpeakers)
      ensures !errorShown ==> PanelsShown() == 1
    {
      var searchTerm := Lower(searchValue);
      var baseData := Base(allSpeakers, currentFilter);
      if searchTerm == "" {
        filteredSpeakers := baseData;
      } else {
        filteredSpeakers := Filter((s: Speaker) => Matches(s, searchTerm), baseData);
      }
      DisplaySpeakers();
    }

    /** `filterSpeakers(type)`: remember the filter, take its subset, and
        hand over to the search when the box is not empty. */
    method FilterSpeakers(kind: FilterKind)
      modifies this`loadingShown, this`gridShown, this`noResultsShown, this`cards, this`filteredSpeakers
      modifies this`currentFilter
      ensures currentFilter == kind
      ensures filteredSpeakers == Visible(allSpeakers, kind, Lower(searchValue))
      ensures !loadingShown && (noResultsShown <==> filteredSpeakers == []) && (gridShown <==> filteredSpeakers != [])
      ensures cards == if filteredSpeakers == [] then old(cards) else Cards(filteredSpeakers)
      ensures !errorShown ==> PanelsShown() == 1
    {
      currentFilter := kind;
      filteredSpeakers := Base(allSpeakers, kind);
      var searchTerm := Lower(searchValue);
      if searchTerm != "" {
        SearchSpeakers();
      } else {
        DisplaySpeakers();
      }
    }

    /** `showSpeakerDetail`, given what the request to
        `GET /api/speakers/:slug` produced: a success opens the overlay on
        that speaker; a failure only raises an alert. */
    method ShowSpeakerDetail(response: Queries.GetResponse)
      modifies this`modalOpen, this`scrollLocked, this`modalSpeaker
      ensures response.GetOk? ==> modalOpen && scrollLocked && modalSpeaker == Some(response.data)
      ensures response.GetError? ==>
        modalOpen == old(modalOpen) && scrollLocked == old(scrollLocked) && modalSpeaker == old(modalSpeaker)
    {
      if response.GetOk? {
        modalSpeaker := Some(response.data);
        modalOpen := true;
        scrollLocked := true;
      }
    }

    /** `closeModal`: hide the overlay and release the body's scroll lock. */
    method CloseModal()
      modifies this`modalOpen, this`scrollLocked
      ensures !modalOpen && !scrollLocked
    {
      modalOpen := false;
      scrollLocked := false;
    }
  }

  /** `displaySpeakers` never hides the error panel: after a failed load, a
      click on a filter button leaves it visible next to the no-results
      panel, so the four panels are only exclusive until that click. */
  method FailedLoadThenFilter() returns (page: SpeakerPage)
    ensures page.errorShown && page.noResultsShown && page.PanelsShown() == 2
  {
    page := new SpeakerPage();
    page.LoadSpeakers(Queries.ListFailure);
    page.FilterSpeakers(Closed);
  }
}
