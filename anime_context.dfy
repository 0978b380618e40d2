/** The catalogue provider (src/contexts/AnimeContext.jsx): the state cells
    behind the list, the pagination flags, the filter criteria, the modal
    and the favourites, and the operations that update them. The list
    algebra (rating filter, page merge, genre and favourite toggles, range
    clamp, filter removal) is pure; the operations are methods of
    `AnimeProvider` over the cells.

    The asynchronous `fetchAnime` is split at its `await`: `BeginFetch` is
    what happens before the request, `CompleteFetch` what happens after it,
    so that a second call can be made while one is in flight. */
module AnimeContext {
  import opened Wrappers
  import opened Text
  import opened Lists
  import opened Catalogue
  import opened AnimeApi

  // ---------------------------------------------------------------------
  // Rating filter

  /** `!anime.score || anime.score <= ratingMax`: a missing or zero score
      passes whatever the maximum. */
  predicate Passes(x: Item, ratingMax: int) {
    x.score.None? || x.score.value == 0 || x.score.value <= ratingMax
  }

  /** The items that pass the maximum, in their order. */
  function KeepPassing(items: seq<Item>, ratingMax: int): (r: seq<Item>)
    ensures forall i :: 0 <= i < |r| ==> Passes(r[i], ratingMax) && r[i] in items
    ensures forall i :: 0 <= i < |items| && Passes(items[i], ratingMax) ==> items[i] in r
    decreases |items|
  {
    if items == [] then []
    else
      var rest := KeepPassing(items[1..], ratingMax);
      assert forall i :: 1 <= i < |items| ==> items[i] == items[1..][i - 1];
      if Passes(items[0], ratingMax) then [items[0]] + rest else rest
  }

  /** Lines 206-210: the maximum rating is not an API parameter, so the
      page is filtered on the client, and only when the maximum is below the
      top of the scale. */
  function RatingFilter(items: seq<Item>, ratingMax: int): seq<Item> {
    if ratingMax < RatingScale then KeepPassing(items, ratingMax) else items
  }

  /** An item is shown exactly when it arrived and either the maximum is
      the top of the scale or the item passes it. */
  lemma RatingFilterKeeps(items: seq<Item>, ratingMax: int, x: Item)
    ensures x in RatingFilter(items, ratingMax) <==> x in items && (ratingMax >= RatingScale || Passes(x, ratingMax))
  {
    if ratingMax < RatingScale && x in KeepPassing(items, ratingMax) {
      var r := KeepPassing(items, ratingMax);
      var i :| 0 <= i < |r| && r[i] == x;
    }
  }

  lemma {:induction false} KeepPassingIsSubsequence(items: seq<Item>, ratingMax: int)
    ensures IsSubsequence(KeepPassing(items, ratingMax), items)
    decreases |items|
  {
    if items != [] {
      KeepPassingIsSubsequence(items[1..], ratingMax);
    }
  }

  /** The filtered page keeps the order in which the items arrived. */
  lemma RatingFilterIsSubsequence(items: seq<Item>, ratingMax: int)
    ensures IsSubsequence(RatingFilter(items, ratingMax), items)
  {
    if ratingMax < RatingScale {
      KeepPassingIsSubsequence(items, ratingMax);
    } else {
      SubsequenceOfSelf(items);
    }
  }

  // ---------------------------------------------------------------------
  // Page merge

  /** `list.some((e) => e.mal_id === id)`. */
  predicate HasId(list: seq<Item>, id: int) {
    exists i :: 0 <= i < |list| && list[i].malId == id
  }

  /** No id occurs twice. */
  predicate DistinctIds(s: seq<Item>) {
    forall i, j :: 0 <= i < j < |s| ==> s[i].malId != s[j].malId
  }

  /** The items of `incoming` whose id is not in `prev`, in arrival order. */
  function Unseen(prev: seq<Item>, incoming: seq<Item>): (r: seq<Item>)
    ensures forall i :: 0 <= i < |r| ==> r[i] in incoming && !HasId(prev, r[i].malId)
    ensures forall i :: 0 <= i < |incoming| && !HasId(prev, incoming[i].malId) ==> incoming[i] in r
    decreases |incoming|
  {
    if incoming == [] then []
    else
      var rest := Unseen(prev, incoming[1..]);
      assert forall i :: 1 <= i < |incoming| ==> incoming[i] == incoming[1..][i - 1];
      if HasId(prev, incoming[0].malId) then rest else [incoming[0]] + rest
  }

  /** Lines 216-222: a later page appends the items whose id is not listed
      yet; duplicates within the page itself are kept. */
  function MergePage(prev: seq<Item>, incoming: seq<Item>): seq<Item> {
    prev + Unseen(prev, incoming)
  }

  /** The listed items stay in front, in their order, and what follows is
      an order-preserving selection of the page. */
  lemma {:induction false} MergePageExtends(prev: seq<Item>, incoming: seq<Item>)
    ensures var r := MergePage(prev, incoming);
      |prev| <= |r| && r[..|prev|] == prev && IsSubsequence(r[|prev|..], incoming)
    decreases |incoming|
  {
    var r := MergePage(prev, incoming);
    assert r[..|prev|] == prev;
    assert r[|prev|..] == Unseen(prev, incoming);
    UnseenIsSubsequence(prev, incoming);
  }

  /** A page that arrives in two parts yields the new items of each part,
      one after the other: the selection is made item by item. */
  lemma {:induction false} UnseenAppend(prev: seq<Item>, a: seq<Item>, b: seq<Item>)
    ensures Unseen(prev, a + b) == Unseen(prev, a) + Unseen(prev, b)
    decreases |a|
  {
    if a == [] {
      assert a + b == b;
    } else {
      assert (a + b)[1..] == a[1..] + b;
      UnseenAppend(prev, a[1..], b);
    }
  }

  /** A single item is added exactly when its id is not listed yet, so a
      repeated item of the page is added as often as it occurs. */
  lemma UnseenSingle(prev: seq<Item>, x: Item)
    ensures Unseen(prev, [x]) == if HasId(prev, x.malId) then [] else [x]
  {
    assert [x][1..] == [];
  }

  lemma {:induction false} UnseenIsSubsequence(prev: seq<Item>, incoming: seq<Item>)
    ensures IsSubsequence(Unseen(prev, incoming), incoming)
    decreases |incoming|
  {
    if incoming != [] {
      UnseenIsSubsequence(prev, incoming[1..]);
    }
  }

  /** A selection of a page with distinct ids has distinct ids. */
  lemma {:induction false} UnseenDistinct(prev: seq<Item>, incoming: seq<Item>)
    requires DistinctIds(incoming)
    ensures DistinctIds(Unseen(prev, incoming))
    decreases |incoming|
  {
    if incoming != [] {
      var tail := incoming[1..];
      assert DistinctIds(tail) by {
        assert forall i :: 0 <= i < |tail| ==> tail[i] == incoming[i + 1];
      }
      UnseenDistinct(prev, tail);
      var rest := Unseen(prev, tail);
      forall i | 0 <= i < |rest| ensures rest[i].malId != incoming[0].malId {
        var k :| 0 <= k < |tail| && tail[k] == rest[i];
        assert tail[k] == incoming[k + 1];
      }
    }
  }

  /** If neither the list nor the page repeats an id, the merged list does
      not either. */
  lemma MergePageDistinct(prev: seq<Item>, incoming: seq<Item>)
    requires DistinctIds(prev) && DistinctIds(incoming)
    ensures DistinctIds(MergePage(prev, incoming))
  {
    var add := Unseen(prev, incoming);
    UnseenDistinct(prev, incoming);
    var r := prev + add;
    forall i, j | 0 <= i < j < |r| ensures r[i].malId != r[j].malId {
      if j >= |prev| && i < |prev| {
        assert r[j] == add[j - |prev|];
        assert !HasId(prev, add[j - |prev|].malId);
      } else if i >= |prev| {
        assert r[i] == add[i - |prev|] && r[j] == add[j - |prev|];
      }
    }
  }

  /** Filtering a page with distinct ids leaves distinct ids. */
  lemma {:induction false} KeepPassingDistinct(items: seq<Item>, ratingMax: int)
    requires DistinctIds(items)
    ensures DistinctIds(KeepPassing(items, ratingMax))
    decreases |items|
  {
    if items != [] {
      var tail := items[1..];
      assert DistinctIds(tail) by {
        assert forall i :: 0 <= i < |tail| ==> tail[i] == items[i + 1];
      }
      KeepPassingDistinct(tail, ratingMax);
      var rest := KeepPassing(tail, ratingMax);
      forall i | 0 <= i < |rest| ensures rest[i].malId != items[0].malId {
        var k :| 0 <= k < |tail| && tail[k] == rest[i];
        assert tail[k] == items[k + 1];
      }
    }
  }

  // ---------------------------------------------------------------------
  // Settling a catalogue request

  /** The cells the catalogue list is made of: `animeList`, `hasNextPage`
      and `totalResults`. */
  datatype Listing = Listing(items: seq<Item>, hasNextPage: bool, total: int)

  /** Lines 206-241: what a settled request for page `currentPage` makes of
      the listing. A result replaces the list on page 1 and is merged into
      it later; the pagination block is taken over, except that an empty
      first page ends the list. An error empties the first page and leaves
      a later one as it was. */
  function Settle(l: Listing, currentPage: int, res: Result<AnimePage, Failure>, ratingMax: int): Listing {
    match res
    case Success(p) =>
      var shown := RatingFilter(p.items, ratingMax);
      Listing(if currentPage == 1 then shown else MergePage(l.items, shown),
              p.pagination.hasNextPage && !(|shown| == 0 && currentPage == 1),
              p.pagination.total)
    case Failure(_) =>
      if currentPage == 1 then Listing([], false, l.total) else l
  }

  /** An empty first page, whether from a result or an error, never offers
      a next page. */
  lemma EmptyFirstPageEnds(l: Listing, res: Result<AnimePage, Failure>, ratingMax: int)
    ensures Settle(l, 1, res, ratingMax).items == [] ==> !Settle(l, 1, res, ratingMax).hasNextPage
  {
  }

  /** On a later page the list only grows: the listed items stay in front,
      unchanged, and an error leaves the whole listing as it was. */
  lemma LaterPageKeepsList(l: Listing, currentPage: int, res: Result<AnimePage, Failure>, ratingMax: int)
    requires currentPage != 1
    ensures var r := Settle(l, currentPage, res, ratingMax);
      |l.items| <= |r.items| && r.items[..|l.items|] == l.items
    ensures res.Failure? ==> Settle(l, currentPage, res, ratingMax) == l
  {
    if res.Success? {
      MergePageExtends(l.items, RatingFilter(res.value.items, ratingMax));
    }
  }

  /** If the API pages never repeat an id, neither does the list. */
  lemma SettleKeepsIdsDistinct(l: Listing, currentPage: int, res: Result<AnimePage, Failure>, ratingMax: int)
    requires currentPage != 1 ==> DistinctIds(l.items)
    requires res.Success? ==> DistinctIds(res.value.items)
    ensures DistinctIds(Settle(l, currentPage, res, ratingMax).items)
  {
    if res.Success? {
      var shown := RatingFilter(res.value.items, ratingMax);
      if ratingMax < RatingScale {
        KeepPassingDistinct(res.value.items, ratingMax);
      }
      if currentPage != 1 {
        MergePageDistinct(l.items, shown);
      }
    }
  }

  /** Below the top of the scale, every listed item passes the maximum,
      provided the items already listed did. */
  lemma SettleShowsPassingOnly(l: Listing, currentPage: int, res: Result<AnimePage, Failure>, ratingMax: int)
    requires ratingMax < RatingScale
    requires currentPage != 1 ==> forall i :: 0 <= i < |l.items| ==> Passes(l.items[i], ratingMax)
    ensures var r := Settle(l, currentPage, res, ratingMax).items;
      forall i :: 0 <= i < |r| ==> Passes(r[i], ratingMax)
  {
    if res.Success? && currentPage != 1 {
      var shown := KeepPassing(res.value.items, ratingMax);
      var r := MergePage(l.items, shown);
      var add := Unseen(l.items, shown);
      forall i | 0 <= i < |r| ensures Passes(r[i], ratingMax) {
        if i >= |l.items| {
          assert r[i] == add[i - |l.items|];
          assert add[i - |l.items|] in shown;
        }
      }
    }
  }

  /** A first page whose fetch times out also looks like an empty
      catalogue, with no error, because the hook judges the timeout as an
      abort. */
  lemma TimedOutFirstPageLooksEmpty(l: Listing, script: seq<Outcome>, ratingMax: int)
    requires |script| > MaxRetries && script[0] == Timeout
    ensures NoticeFor(ShapeAnime(Request(script).0)) == None
    ensures Settle(l, 1, ShapeAnime(Request(script).0), ratingMax) == Listing([], false, 0)
  {
    TimedOutRequest(script);
    AbortedFirstPageLooksEmpty(l, ratingMax);
  }

  /** An aborted first page looks like an empty catalogue: no items, no
      next page, total 0, and no error. */
  lemma AbortedFirstPageLooksEmpty(l: Listing, ratingMax: int)
    ensures ShapeAnime(Failure(AbortedRequest)).Success?
    ensures Settle(l, 1, ShapeAnime(Failure(AbortedRequest)), ratingMax) == Listing([], false, 0)
  {
  }

  // ---------------------------------------------------------------------
  // Filter criteria

  /** Lines 110-121 and 124-135: the maximum is taken as given and the
      minimum is lowered to it when it exceeds it. */
  function ClampRange(min: int, max: int): (r: (int, int))
    ensures r.1 == max && r.0 <= r.1
    ensures min <= max ==> r.0 == min
    ensures min > max ==> r.0 == max
  {
    if min > max then (max, max) else (min, max)
  }

  /** Both ranges are in order. */
  predicate RangesOrdered(f: Filters) {
    f.yearMin <= f.yearMax && f.ratingMin <= f.ratingMax
  }

  /** Lines 138-147: an id that is not selected is appended, a selected one
      has every occurrence removed. */
  function ToggleId(s: seq<string>, id: string): (r: seq<string>)
    ensures id in r <==> id !in s
    ensures forall x :: x != id ==> (x in r <==> x in s)
    ensures id !in s ==> r == s + [id]
  {
    if id !in s then s + [id] else RemoveAll(s, id)
  }

  /** Deselecting a genre keeps the other selected ids in their order. */
  lemma ToggleIdKeepsOrder(s: seq<string>, id: string)
    requires id in s
    ensures IsSubsequence(ToggleId(s, id), s)
  {
    RemoveAllIsSubsequence(s, id);
  }

  /** Toggling an unselected genre twice restores the selection. */
  lemma ToggleIdTwice(s: seq<string>, id: string)
    requires id !in s
    ensures ToggleId(ToggleId(s, id), id) == s
  {
    RemoveAllAppended(s, id);
  }

  /** Lines 285-305 on the filter cells: the filter named `id` is back at
      its default; an id of decimal digits is a genre id and leaves the
      selection; any other id changes nothing. */
  function ClearFilter(f: Filters, id: string, currentYear: int): Filters {
    if id == "type" then f.(kind := "")
    else if id == "status" then f.(status := "")
    else if id == "year" then f.(yearMin := DefaultYearMin, yearMax := currentYear)
    else if id == "rating" then f.(ratingMin := 0, ratingMax := RatingScale)
    else if id == "sort" then f.(sort := DefaultSort, sortOrder := DefaultSortOrder)
    else if id == "search" then f.(query := "")
    else if IsDigitString(id) then f.(genres := RemoveAll(f.genres, id))
    else f
  }

  /** Removing a filter keeps the ranges in order. */
  lemma ClearFilterKeepsOrder(f: Filters, id: string, currentYear: int)
    requires RangesOrdered(f) && DefaultYearMin <= currentYear
    ensures RangesOrdered(ClearFilter(f, id, currentYear))
  {
  }

  /** The ids of the tags that are not genres. */
  const FixedFilterIds: seq<string> := ["search", "type", "status", "year", "rating", "sort"]

  /** Removing the filters of `ids` one after the other. */
  function ClearEach(f: Filters, ids: seq<string>, currentYear: int): Filters
    decreases |ids|
  {
    if ids == [] then f else ClearEach(ClearFilter(f, ids[0], currentYear), ids[1..], currentYear)
  }

  /** Removing genre ids one after the other, when all are genre ids, only
      touches the selection, and a selection whose every entry is among
      them ends up empty. */
  lemma {:induction false} ClearGenreIds(f: Filters, ids: seq<string>, currentYear: int)
    requires forall i :: 0 <= i < |ids| ==> IsDigitString(ids[i])
    requires forall g :: g in f.genres ==> g in ids
    ensures ClearEach(f, ids, currentYear) == f.(genres := [])
    decreases |ids|
  {
    if ids == [] {
      HasMember(f.genres);
    } else {
      var id := ids[0];
      assert id != "type" && id != "status" && id != "year" && id != "rating" && id != "sort" && id != "search" by {
        assert IsDigit(id[0]);
      }
      var g := ClearFilter(f, id, currentYear);
      assert g == f.(genres := RemoveAll(f.genres, id));
      forall x | x in g.genres ensures x in ids[1..] {
        assert x in ids && x != id;
        var k :| 0 <= k < |ids| && ids[k] == x;
        assert ids[1..][k - 1] == x;
      }
      ClearGenreIds(g, ids[1..], currentYear);
    }
  }

  /** Removing every tag one by one, the fixed ones and then each selected
      genre, gives the same filters as resetting them all (lines 313-323). */
  lemma RemovingEveryFilterResetsAll(f: Filters, currentYear: int)
    requires forall i :: 0 <= i < |f.genres| ==> IsDigitString(f.genres[i])
    ensures ClearEach(f, FixedFilterIds + f.genres, currentYear) == DefaultFilters(currentYear)
  {
    var g := ClearEach(f, FixedFilterIds, currentYear);
    assert g == f.(query := "", kind := "", status := "", yearMin := DefaultYearMin, yearMax := currentYear,
                   ratingMin := 0, ratingMax := RatingScale, sort := DefaultSort, sortOrder := DefaultSortOrder);
    ClearEachAppend(f, FixedFilterIds, f.genres, currentYear);
    ClearGenreIds(g, f.genres, currentYear);
  }

  lemma {:induction false} ClearEachAppend(f: Filters, a: seq<string>, b: seq<string>, currentYear: int)
    ensures ClearEach(f, a + b, currentYear) == ClearEach(ClearEach(f, a, currentYear), b, currentYear)
    decreases |a|
  {
    if a == [] {
      assert a + b == b;
    } else {
      assert (a + b)[1..] == a[1..] + b;
      ClearEachAppend(ClearFilter(f, a[0], currentYear), a[1..], b, currentYear);
    }
  }

  // ---------------------------------------------------------------------
  // Favourites

  /** Lines 457-463: the fields a favourite keeps. */
  function FavoriteEntry(a: Item): Item {
    Item(a.malId, a.title, a.score, a.kind, a.imageUrl, "")
  }

  /** `list.filter((e) => e.mal_id !== id)`. */
  function WithoutId(s: seq<Item>, id: int): (r: seq<Item>)
    ensures !HasId(r, id)
    ensures forall i :: 0 <= i < |r| ==> r[i] in s
    ensures forall i :: 0 <= i < |s| && s[i].malId != id ==> s[i] in r
    decreases |s|
  {
    if s == [] then []
    else
      var rest := WithoutId(s[1..], id);
      assert forall i :: 1 <= i < |s| ==> s[i] == s[1..][i - 1];
      if s[0].malId == id then rest else [s[0]] + rest
  }

  lemma {:induction false} WithoutAbsentId(s: seq<Item>, id: int)
    requires !HasId(s, id)
    ensures WithoutId(s, id) == s
    decreases |s|
  {
    if s != [] {
      assert s[0].malId != id;
      assert !HasId(s[1..], id) by {
        assert forall i :: 0 <= i < |s[1..]| ==> s[1..][i] == s[i + 1];
      }
      WithoutAbsentId(s[1..], id);
      assert [s[0]] + s[1..] == s;
    }
  }

  /** Lines 448-465: a favourite is removed with every entry of its id, any
      other anime is appended as a favourite entry. */
  function ToggleFavoriteList(favs: seq<Item>, a: Item): (r: seq<Item>)
    ensures HasId(r, a.malId) <==> !HasId(favs, a.malId)
    ensures forall i :: 0 <= i < |favs| && favs[i].malId != a.malId ==> favs[i] in r
    ensures forall i :: 0 <= i < |r| ==> r[i] in favs || r[i] == FavoriteEntry(a)
    ensures !HasId(favs, a.malId) ==> r == favs + [FavoriteEntry(a)]
  {
    if HasId(favs, a.malId) then WithoutId(favs, a.malId)
    else
      var r := favs + [FavoriteEntry(a)];
      assert r[|favs|].malId == a.malId;
      r
  }

  lemma {:induction false} WithoutIdIsSubsequence(s: seq<Item>, id: int)
    ensures IsSubsequence(WithoutId(s, id), s)
    decreases |s|
  {
    if s != [] {
      WithoutIdIsSubsequence(s[1..], id);
    }
  }

  /** Removing a favourite keeps the other favourites in their order. */
  lemma ToggleFavoriteKeepsOrder(favs: seq<Item>, a: Item)
    requires HasId(favs, a.malId)
    ensures IsSubsequence(ToggleFavoriteList(favs, a), favs)
  {
    WithoutIdIsSubsequence(favs, a.malId);
  }

  /** Toggling a non-favourite twice restores the favourites. */
  lemma ToggleFavoriteTwice(favs: seq<Item>, a: Item)
    requires !HasId(favs, a.malId)
    ensures ToggleFavoriteList(ToggleFavoriteList(favs, a), a) == favs
  {
    var once := favs + [FavoriteEntry(a)];
    assert once[|favs|].malId == a.malId;
    WithoutAbsentId(favs, a.malId);
    var single := [FavoriteEntry(a)];
    assert WithoutId(single, a.malId) == [] by {
      assert single[1..] == [];
    }
    WithoutIdAppend(favs, single, a.malId);
  }

  lemma {:induction false} WithoutIdAppend(s: seq<Item>, t: seq<Item>, id: int)
    ensures WithoutId(s + t, id) == WithoutId(s, id) + WithoutId(t, id)
    decreases |s|
  {
    if s == [] {
      assert s + t == t;
    } else {
      assert (s + t)[1..] == s[1..] + t;
      WithoutIdAppend(s[1..], t, id);
    }
  }

  // ---------------------------------------------------------------------
  // The provider

  /** What the provider reports in `error`. */
  datatype Notice = AnimeLoadFailed(reason: string) | GenresLoadFailed

  /** The `error` cell after a catalogue request. */
  function NoticeFor(res: Result<AnimePage, Failure>): Option<Notice> {
    if res.Failure? then Some(AnimeLoadFailed(res.error.Message())) else None
  }

  /** The page a `fetchAnime(pageToFetch)` call loads (line 172). */
  function PageToLoad(pageToFetch: Option<int>, page: int): int {
    if pageToFetch.Some? then pageToFetch.value else page
  }

  class AnimeProvider {
    var animeList: seq<Item>
    var page: int
    var isFetching: bool
    var hasNextPage: bool
    /** The filter cells `selectedGenres`, `selectedType`, `selectedStatus`,
        `selectedSort`, `selectedSortOrder`, `searchQuery`, `yearMin`,
        `yearMax`, `ratingMin` and `ratingMax`. */
    var filters: Filters
    var genres: seq<Item>
    var isFilterPanelActive: bool
    var favorites: seq<Item>
    /** The `favorites` entry of `localStorage`. */
    var storedFavorites: seq<Item>
    var selectedAnime: Option<Item>
    var activeTab: string
    var totalResults: int
    var error: Option<Notice>
    var isInitialized: bool
    /** `new Date().getFullYear()`. */
    const currentYear: int
    /** The request hook the provider calls. */
    const api: AnimeApi

    ghost predicate Valid()
      reads this`filters, this`page, api
    {
      && api.Valid()
      && DefaultYearMin <= currentYear
      && RangesOrdered(filters)
      && page >= 1
    }

    function Listed(): Listing
      reads this`animeList, this`hasNextPage, this`totalResults
    {
      Listing(animeList, hasNextPage, totalResults)
    }

    /** Lines 18-50: the initial cells; the favourites come from storage. */
    constructor (year: int, stored: seq<Item>, now: int)
      requires DefaultYearMin <= year && now >= 0
      ensures Valid() && fresh(api)
      ensures Listed() == Listing([], true, 0) && page == 1 && !isFetching
      ensures filters == DefaultFilters(year) && currentYear == year
      ensures favorites == stored && storedFavorites == stored
      ensures genres == [] && selectedAnime == None && error == None && !isInitialized && !isFilterPanelActive
    {
      animeList, page, isFetching, hasNextPage := [], 1, false, true;
      filters := DefaultFilters(year);
      genres, isFilterPanelActive := [], false;
      favorites, storedFavorites := stored, stored;
      selectedAnime, activeTab := None, "info";
      totalResults, error, isInitialized := 0, None, false;
      currentYear := year;
      api := new AnimeApi(now);
    }

    /** Lines 110-121. */
    method UpdateYearRange(min: int, max: int)
      requires Valid()
      modifies this`filters
      ensures Valid()
      ensures filters == old(filters).(yearMin := ClampRange(min, max).0, yearMax := max)
    {
      var newMin := min;
      if newMin > max {
        newMin := max;
      }
      filters := filters.(yearMin := newMin, yearMax := max);
    }

    /** Lines 124-135. */
    method UpdateRatingRange(min: int, max: int)
      requires Valid()
      modifies this`filters
      ensures Valid()
      ensures filters == old(filters).(ratingMin := ClampRange(min, max).0, ratingMax := max)
    {
      var newMin := min;
      if newMin > max {
        newMin := max;
      }
      filters := filters.(ratingMin := newMin, ratingMax := max);
    }

    /** Lines 138-147. */
    method ToggleGenre(id: string)
      requires Valid()
      modifies this`filters
      ensures Valid()
      ensures filters == old(filters).(genres := ToggleId(old(filters.genres), id))
    {
      filters := filters.(genres := ToggleId(filters.genres, id));
    }

    /** Lines 150-158. */
    method ToggleFilterPanel()
      modifies this`isFilterPanelActive
      ensures isFilterPanelActive == !old(isFilterPanelActive)
    {
      isFilterPanelActive := !isFilterPanelActive;
    }

    /** Lines 161-166. */
    method CloseFilterPanel()
      modifies this`isFilterPanelActive
      ensures !isFilterPanelActive
    {
      isFilterPanelActive := false;
    }

    /** Lines 172-185, up to the request: a call for a page other than the
        first is dropped while a request is in flight; otherwise the
        request starts, the error is cleared and page 1 empties the list. */
    method BeginFetch(pageToFetch: Option<int>) returns (started: bool, currentPage: int)
      modifies this`isFetching, this`error, this`animeList
      ensures currentPage == PageToLoad(pageToFetch, page)
      ensures started <==> !(old(isFetching) && currentPage != 1)
      ensures !started ==> isFetching == old(isFetching) && error == old(error) && animeList == old(animeList)
      ensures started ==> isFetching && error == None
      ensures started ==> animeList == if currentPage == 1 then [] else old(animeList)
    {
      currentPage := PageToLoad(pageToFetch, page);
      if isFetching && currentPage != 1 {
        return false, currentPage;
      }
      started := true;
      isFetching := true;
      error := None;
      if currentPage == 1 {
        animeList := [];
      }
    }

    /** Lines 206-244, after the request: the listing is settled by the
        result, an error is reported, and the request is over. */
    method CompleteFetch(currentPage: int, res: Result<AnimePage, Failure>)
      modifies this`animeList, this`hasNextPage, this`totalResults, this`error, this`isFetching
      ensures Listed() == Settle(old(Listed()), currentPage, res, filters.ratingMax)
      ensures error == if res.Failure? then NoticeFor(res) else old(error)
      ensures !isFetching
    {
      match res {
        case Success(p) =>
        var shown := RatingFilter(p.items, filters.ratingMax);
        if currentPage == 1 {
          animeList := shown;
        } else {
          animeList := MergePage(animeList, shown);
        }
        hasNextPage := p.pagination.hasNextPage;
        totalResults := p.pagination.total;
        if |shown| == 0 && currentPage == 1 {
          hasNextPage := false;
        }
      case Failure(f) =>
        error := Some(AnimeLoadFailed(f.Message()));
        if currentPage == 1 {
          animeList := [];
          hasNextPage := false;
        }
      }
      isFetching := false;
    }

    /** Lines 169-247: load a page of the catalogue with the current
        filters. The request ends in the hook's state as `Settled` says. */
    method FetchAnime(pageToFetch: Option<int>, script: seq<Outcome>) returns (started: bool)
      requires Valid() && |script| > MaxRetries
      modifies this`isFetching, this`error, this`animeList, this`hasNextPage, this`totalResults, api
      ensures Valid()
      ensures var cp := PageToLoad(pageToFetch, page);
        && (started <==> !(old(isFetching) && cp != 1))
        && (!started ==> Listed() == old(Listed()) && isFetching && error == old(error) && unchanged(api))
        && (started ==>
              && !isFetching
              && error == NoticeFor(ShapeAnime(Request(script).0))
              && Listed() == Settle(Listing(if cp == 1 then [] else old(animeList), old(hasNextPage), old(totalResults)),
                                    cp, ShapeAnime(Request(script).0), filters.ratingMax)
              && api.Settled(AnimeUrl(BuildParams(cp, filters, currentYear)), Request(script).1))
    {
      var currentPage;
      started, currentPage := BeginFetch(pageToFetch);
      if !started {
        return;
      }
      var res := api.FetchAnime(currentPage, filters, currentYear, script);
      CompleteFetch(currentPage, res);
    }

    /** What `resetAndFetch` leaves behind: every request of the hook
        cancelled, the first page loaded afresh with the current filters,
        and nothing left in the hook's registry. */
    twostate predicate Refetched(script: seq<Outcome>)
      requires |script| > MaxRetries
      reads this, api
    {
      && page == 1
      && !isFetching
      && error == NoticeFor(ShapeAnime(Request(script).0))
      && Listed() == Settle(Listing([], true, old(totalResults)), 1, ShapeAnime(Request(script).0), filters.ratingMax)
      && api.controllers == map[]
      && old(api.aborted) + old(api.controllers).Values <= api.aborted
    }

    /** Lines 250-263: cancel every request, reset the listing to an empty
        first page, and after the 10 ms timer load page 1. */
    method ResetAndFetch(script: seq<Outcome>)
      requires Valid() && |script| > MaxRetries
      modifies this`isFetching, this`error, this`animeList, this`hasNextPage, this`totalResults, this`page, api
      ensures Valid()
      ensures Refetched(script)
    {
      api.CancelAllRequests();
      animeList := [];
      page := 1;
      hasNextPage := true;
      api.AdvanceClock(10);
      var _ := FetchAnime(Some(1), script);
    }

    /** Lines 266-277. */
    method ApplyFilterChanges(kind: string, status: string, sort: string, sortOrder: string, script: seq<Outcome>)
      requires Valid() && |script| > MaxRetries
      modifies this`filters, this`isFilterPanelActive
      modifies this`isFetching, this`error, this`animeList, this`hasNextPage, this`totalResults, this`page, api
      ensures Valid()
      ensures filters == old(filters).(kind := kind, status := status, sort := sort, sortOrder := sortOrder)
      ensures !isFilterPanelActive
      ensures Refetched(script)
    {
      filters := filters.(kind := kind, status := status, sort := sort, sortOrder := sortOrder);
      CloseFilterPanel();
      ResetAndFetch(script);
    }

    /** Lines 285-310: remove one filter, then reload. */
    method RemoveFilter(id: string, script: seq<Outcome>)
      requires Valid() && |script| > MaxRetries
      modifies this`filters
      modifies this`isFetching, this`error, this`animeList, this`hasNextPage, this`totalResults, this`page, api
      ensures Valid()
      ensures filters == ClearFilter(old(filters), id, currentYear)
      ensures Refetched(script)
    {
      if id == "type" {
        filters := filters.(kind := "");
      } else if id == "status" {
        filters := filters.(status := "");
      } else if id == "year" {
        filters := filters.(yearMin := DefaultYearMin, yearMax := currentYear);
      } else if id == "rating" {
        filters := filters.(ratingMin := 0, ratingMax := RatingScale);
      } else if id == "sort" {
        filters := filters.(sort := DefaultSort, sortOrder := DefaultSortOrder);
      } else if id == "search" {
        filters := filters.(query := "");
      } else if IsDigitString(id) {
        filters := filters.(genres := RemoveAll(filters.genres, id));
      }
      ResetAndFetch(script);
    }

    /** Lines 313-327. */
    method ResetAllFilters(script: seq<Outcome>)
      requires Valid() && |script| > MaxRetries
      modifies this`filters, this`isFilterPanelActive
      modifies this`isFetching, this`error, this`animeList, this`hasNextPage, this`totalResults, this`page, api
      ensures Valid()
      ensures filters == DefaultFilters(currentYear)
      ensures !isFilterPanelActive
      ensures Refetched(script)
    {
      filters := DefaultFilters(currentYear);
      CloseFilterPanel();
      ResetAndFetch(script);
    }

    /** Lines 330-336. */
    method HandleSearch(query: string, script: seq<Outcome>)
      requires Valid() && |script| > MaxRetries
      modifies this`filters
      modifies this`isFetching, this`error, this`animeList, this`hasNextPage, this`totalResults, this`page, api
      ensures Valid()
      ensures filters == old(filters).(query := query)
      ensures Refetched(script)
    {
      filters := filters.(query := query);
      ResetAndFetch(script);
    }

    /** Lines 339-342. */
    method ClearSearch(script: seq<Outcome>)
      requires Valid() && |script| > MaxRetries
      modifies this`filters
      modifies this`isFetching, this`error, this`animeList, this`hasNextPage, this`totalResults, this`page, api
      ensures Valid()
      ensures filters == old(filters).(query := "")
      ensures Refetched(script)
    {
      HandleSearch("", script);
    }

    /** Lines 353-361: the genre list, or an error notice. */
    method FetchGenres(script: seq<Outcome>)
      requires Valid() && |script| > MaxRetries
      modifies this`genres, this`error, api
      ensures Valid()
      ensures ShapeGenres(Request(script).0).Success? ==> genres == ShapeGenres(Request(script).0).value && error == old(error)
      ensures ShapeGenres(Request(script).0).Failure? ==> genres == old(genres) && error == Some(GenresLoadFailed)
      ensures api.Settled(GenresUrl, Request(script).1)
    {
      var r := api.FetchGenres(script);
      match r
      case Success(g) => genres := g;
      case Failure(_) => error := Some(GenresLoadFailed);
    }

    /** Lines 365-381 with the scroll geometry as `nearBottom`: the page
        advances by one only when no request is in flight, a next page
        exists and something is listed. */
    method HandleScroll(nearBottom: bool) returns (advanced: bool)
      requires Valid()
      modifies this`page
      ensures Valid()
      ensures advanced <==> nearBottom && !isFetching && hasNextPage && |animeList| > 0
      ensures page == old(page) + (if advanced then 1 else 0)
    {
      if isFetching || !hasNextPage {
        return false;
      }
      advanced := nearBottom && !isFetching && hasNextPage && |animeList| > 0;
      if advanced {
        page := page + 1;
      }
    }

    /** Lines 390-394: a page beyond the first is loaded once the provider
        is initialised. */
    method PageEffect(script: seq<Outcome>) returns (loaded: bool)
      requires Valid() && |script| > MaxRetries
      modifies this`isFetching, this`error, this`animeList, this`hasNextPage, this`totalResults, api
      ensures Valid()
      ensures loaded <==> page > 1 && isInitialized && !old(isFetching)
      ensures !loaded ==> Listed() == old(Listed()) && error == old(error) && isFetching == old(isFetching) && unchanged(api)
      ensures loaded ==> Listed() == Settle(old(Listed()), page, ShapeAnime(Request(script).0), filters.ratingMax)
      ensures loaded ==> !isFetching && error == NoticeFor(ShapeAnime(Request(script).0))
      ensures loaded ==> api.Settled(AnimeUrl(BuildParams(page, filters, currentYear)), Request(script).1)
    {
      loaded := false;
      if page > 1 && isInitialized {
        loaded := FetchAnime(Some(page), script);
      }
    }

    /** Lines 397-412: load the genres, then the first page, once. The
        catch block of lines 404-407 is unreachable, since both calls catch
        their own errors. */
    method Initialize(genreScript: seq<Outcome>, animeScript: seq<Outcome>)
      requires Valid() && |genreScript| > MaxRetries && |animeScript| > MaxRetries
      modifies this`genres, this`isFetching, this`error, this`animeList, this`hasNextPage, this`totalResults
      modifies this`isInitialized, api
      ensures Valid() && isInitialized
      ensures old(isInitialized) ==>
        && Listed() == old(Listed()) && genres == old(genres) && unchanged(api)
        && error == old(error) && isFetching == old(isFetching)
      ensures !old(isInitialized) ==>
        && genres == (if ShapeGenres(Request(genreScript).0).Success? then ShapeGenres(Request(genreScript).0).value else old(genres))
        && !isFetching
        && error == NoticeFor(ShapeAnime(Request(animeScript).0))
        && Listed() == Settle(Listing([], old(hasNextPage), old(totalResults)), 1, ShapeAnime(Request(animeScript).0), filters.ratingMax)
    {
      if !isInitialized {
        FetchGenres(genreScript);
        var _ := FetchAnime(Some(1), animeScript);
        isInitialized := true;
      }
    }

    /** Lines 415-417: unmounting cancels every request. */
    method Unmount()
      requires Valid()
      modifies api
      ensures Valid()
      ensures api.controllers == map[] && old(api.controllers).Values <= api.aborted
    {
      api.CancelAllRequests();
    }

    /** Lines 421-427. */
    method ShowAnimeDetail(a: Item)
      modifies this`selectedAnime, this`activeTab
      ensures selectedAnime == Some(a) && activeTab == "info"
    {
      selectedAnime := Some(a);
      activeTab := "info";
    }

    /** Lines 430-435. */
    method HideModal()
      modifies this`selectedAnime
      ensures selectedAnime == None
    {
      selectedAnime := None;
    }

    /** Lines 443-472: with no anime selected nothing happens; otherwise
        the selected anime's favourite state flips and the new list is
        stored. */
    method ToggleFavorite()
      modifies this`favorites, this`storedFavorites
      ensures selectedAnime == None ==> favorites == old(favorites) && storedFavorites == old(storedFavorites)
      ensures selectedAnime.Some? ==>
        && favorites == ToggleFavoriteList(old(favorites), selectedAnime.value)
        && storedFavorites == favorites
    {
      if selectedAnime == None {
        return;
      }
      var newFavorites := ToggleFavoriteList(favorites, selectedAnime.value);
      storedFavorites := newFavorites;
      favorites := newFavorites;
    }

    /** Lines 475-514: the provider's `fetchCharacters` (`what` is
        "characters") and `fetchStaff` (`what` is "staff"): a falsy id
        yields no entries without a request; errors reach the caller. */
    method FetchDetail(animeId: int, what: string, script: seq<Outcome>) returns (r: Result<seq<Item>, Failure>)
      requires Valid() && |script| > MaxRetries
      requires what == "characters" || what == "staff"
      modifies api
      ensures Valid()
      ensures animeId == 0 ==> r == Success([]) && unchanged(api)
      ensures animeId != 0 ==> r == ShapeDetail(Request(script).0, DetailNoun(what))
    {
      if animeId == 0 {
        return Success([]);
      }
      r := api.FetchDetail(animeId, what, script);
    }
  }
}
