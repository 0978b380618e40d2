/** The bar of active filter tags (src/components/ActiveFilters.jsx): whether
    any filter differs from its default, the labels of the type, status and
    sort codes, and the tags shown, each with the id `removeFilter` is
    called with. */
module ActiveFilters {
  import opened Wrappers
  import opened Text
  import opened Lists
  import opened Catalogue
  import opened AnimeContext

  /** Lines 22-32: some filter differs from its default. */
  predicate HasActiveFilters(f: Filters, currentYear: int) {
    || f.query != ""
    || |f.genres| > 0
    || f.kind != ""
    || f.status != ""
    || f.yearMin > DefaultYearMin
    || f.yearMax < currentYear
    || f.ratingMin > 0
    || f.ratingMax < RatingScale
    || f.sort != DefaultSort
    || f.sortOrder != DefaultSortOrder
  }

  /** Lines 40-47. */
  const TypeOptions: map<string, string> :=
    map["TV" := "TV Сериал", "Movie" := "Фильм", "OVA" := "OVA", "ONA" := "ONA", "Special" := "Спешл", "Music" := "Клип"]

  /** Lines 53-57. */
  const StatusOptions: map<string, string> :=
    map["Airing" := "Выходит", "Complete" := "Завершён", "Upcoming" := "Анонсирован"]

  /** Lines 63-70. */
  const SortOptions: map<string, string> :=
    map["score" := "По рейтингу", "popularity" := "По популярности", "title" := "По названию",
        "start_date" := "По дате выхода", "end_date" := "По дате завершения", "episodes" := "По кол-ву эпизодов"]

  /** `options[code] || code`: the label of a known code, and the code
      itself when the table has no label for it. */
  function LabelOf(options: map<string, string>, code: string): (s: string)
    ensures code !in options ==> s == code
    ensures code in options && options[code] != "" ==> s == options[code]
  {
    if code in options && options[code] != "" then options[code] else code
  }

  /** Lines 39-49. */
  function TypeText(kind: string): string {
    LabelOf(TypeOptions, kind)
  }

  /** Lines 52-59. */
  function StatusText(status: string): string {
    LabelOf(StatusOptions, status)
  }

  /** Lines 62-72. */
  function SortText(sort: string): string {
    LabelOf(SortOptions, sort)
  }

  /** A rating in hundredths as the template literal prints the number. */
  function RatingText(h: int): string {
    if h < 0 then "-" + HundredthsToString(-h) else HundredthsToString(h)
  }

  /** The arrow of the sort tag (line 121). */
  function Arrow(sortOrder: string): (s: string)
    ensures s == "↓" <==> sortOrder == "desc"
  {
    if sortOrder == "desc" then "↓" else "↑"
  }

  /** One `FilterTag`: its caption, its value and the id its remove button
      passes to `removeFilter`. */
  datatype Tag = Tag(caption: string, value: string, id: string)

  const GenreLabel := "Жанр"

  /** Line 82: the first genre whose id prints as `genreId`. */
  function FindGenre(genres: seq<Item>, genreId: string): (r: Option<Item>)
    ensures r.Some? ==> r.value in genres && IntToString(r.value.malId) == genreId
    ensures r.None? ==> forall i :: 0 <= i < |genres| ==> IntToString(genres[i].malId) != genreId
    decreases |genres|
  {
    if genres == [] then None
    else if IntToString(genres[0].malId) == genreId then Some(genres[0])
    else
      var r := FindGenre(genres[1..], genreId);
      assert forall i :: 1 <= i < |genres| ==> genres[i] == genres[1..][i - 1];
      r
  }

  /** The tag of a selected genre id, when the genre is known. */
  function GenreTag(genreId: string, genres: seq<Item>): Option<Tag> {
    match FindGenre(genres, genreId)
    case Some(g) => Some(Tag(GenreLabel, g.name, genreId))
    case None => None
  }

  /** Lines 81-95: one tag per selected id whose genre is known, in the
      order of the selection. */
  function GenreTags(selected: seq<string>, genres: seq<Item>): (r: seq<Tag>)
    ensures |r| <= |selected|
    ensures forall i :: 0 <= i < |r| ==> r[i].id in selected && GenreTag(r[i].id, genres) == Some(r[i])
    ensures forall i :: 0 <= i < |selected| && GenreTag(selected[i], genres).Some? ==>
      GenreTag(selected[i], genres).value in r
    decreases |selected|
  {
    if selected == [] then []
    else
      var rest := GenreTags(selected[1..], genres);
      assert forall i :: 1 <= i < |selected| ==> selected[i] == selected[1..][i - 1];
      match GenreTag(selected[0], genres)
      case Some(t) => [t] + rest
      case None => rest
  }

  /** The tags of a selection made in two parts are the tags of the first
      part followed by those of the second: the bar keeps selection order. */
  lemma {:induction false} GenreTagsAppend(a: seq<string>, b: seq<string>, genres: seq<Item>)
    ensures GenreTags(a + b, genres) == GenreTags(a, genres) + GenreTags(b, genres)
    decreases |a|
  {
    if a == [] {
      assert a + b == b;
    } else {
      assert (a + b)[1..] == a[1..] + b;
      GenreTagsAppend(a[1..], b, genres);
    }
  }

  /** A single selected id gives its genre's tag, or no tag when the genre
      is not loaded. */
  lemma GenreTagsSingle(genreId: string, genres: seq<Item>)
    ensures GenreTags([genreId], genres) ==
      match GenreTag(genreId, genres) case Some(t) => [t] case None => []
  {
    assert [genreId][1..] == [];
  }

  /** The filters that are not genres, each with the id its tag passes to
      `removeFilter`. */
  datatype FilterName = ByQuery | ByType | ByStatus | ByYear | ByRating | BySort
  {
    function Id(): string {
      match this
      case ByQuery => "search"
      case ByType => "type"
      case ByStatus => "status"
      case ByYear => "year"
      case ByRating => "rating"
      case BySort => "sort"
    }
  }

  /** The tag of filter `n`, when the filter is active. */
  function FixedTag(n: FilterName, f: Filters, currentYear: int): (r: Option<Tag>)
    ensures r.Some? ==> r.value.id == n.Id()
  {
    match n
    case ByQuery =>
      if f.query != "" then Some(Tag("Поиск", f.query, n.Id())) else None
    case ByType =>
      if f.kind != "" then Some(Tag("Тип", TypeText(f.kind), n.Id())) else None
    case ByStatus =>
      if f.status != "" then Some(Tag("Статус", StatusText(f.status), n.Id())) else None
    case ByYear =>
      if f.yearMin > DefaultYearMin || f.yearMax < currentYear
      then Some(Tag("Год", IntToString(f.yearMin) + " - " + IntToString(f.yearMax), n.Id())) else None
    case ByRating =>
      if f.ratingMin > 0 || f.ratingMax < RatingScale
      then Some(Tag("Рейтинг", RatingText(f.ratingMin) + " - " + RatingText(f.ratingMax), n.Id())) else None
    case BySort =>
      if f.sort != DefaultSort || f.sortOrder != DefaultSortOrder
      then Some(Tag("Сортировка", SortText(f.sort) + " " + Arrow(f.sortOrder), n.Id())) else None
  }

  function Shown(t: Option<Tag>): seq<Tag> {
    if t.Some? then [t.value] else []
  }

  /** Lines 77-125: the tags in the order the bar shows them. */
  function Tags(f: Filters, genres: seq<Item>, currentYear: int): seq<Tag> {
    Shown(FixedTag(ByQuery, f, currentYear))
      + GenreTags(f.genres, genres)
      + Shown(FixedTag(ByType, f, currentYear))
      + Shown(FixedTag(ByStatus, f, currentYear))
      + Shown(FixedTag(ByYear, f, currentYear))
      + Shown(FixedTag(ByRating, f, currentYear))
      + Shown(FixedTag(BySort, f, currentYear))
  }

  /** Lines 34-36 and 74-128: the component renders nothing when no filter
      is active, and the bar of tags otherwise. */
  function Render(f: Filters, genres: seq<Item>, currentYear: int): (r: Option<seq<Tag>>)
    ensures r.None? <==> !HasActiveFilters(f, currentYear)
    ensures r.Some? ==> r.value == Tags(f, genres, currentYear)
  {
    if HasActiveFilters(f, currentYear) then Some(Tags(f, genres, currentYear)) else None
  }

  /** The first tag with id `id`. */
  function TagWithId(tags: seq<Tag>, id: string): (r: Option<Tag>)
    ensures r.Some? ==> r.value in tags && r.value.id == id
    ensures r.None? ==> forall i :: 0 <= i < |tags| ==> tags[i].id != id
    decreases |tags|
  {
    if tags == [] then None
    else if tags[0].id == id then Some(tags[0])
    else
      var r := TagWithId(tags[1..], id);
      assert forall i :: 1 <= i < |tags| ==> tags[i] == tags[1..][i - 1];
      r
  }

  lemma {:induction false} TagWithIdAppend(a: seq<Tag>, b: seq<Tag>, id: string)
    ensures TagWithId(a + b, id) == if TagWithId(a, id).Some? then TagWithId(a, id) else TagWithId(b, id)
    decreases |a|
  {
    if a == [] {
      assert a + b == b;
    } else {
      assert (a + b)[1..] == a[1..] + b;
      TagWithIdAppend(a[1..], b, id);
    }
  }

  /** The ids of different filters differ (in their first two letters). */
  lemma IdsDiffer(m: FilterName, n: FilterName)
    requires m != n
    ensures m.Id() != n.Id()
  {
    assert m.Id()[0] != n.Id()[0] || m.Id()[1] != n.Id()[1];
  }

  /** A genre tag's id is a printed genre id, so it starts with a digit
      or a minus sign and is never the id of another filter. */
  lemma GenreTagsHaveNoFixedId(selected: seq<string>, genres: seq<Item>, n: FilterName)
    ensures TagWithId(GenreTags(selected, genres), n.Id()) == None
  {
    var r := GenreTags(selected, genres);
    var id := n.Id();
    assert 'a' <= id[0] <= 'z';
    forall i | 0 <= i < |r| ensures r[i].id != id {
      var g := FindGenre(genres, r[i].id).value;
      var s := IntToString(g.malId);
      assert s[0] == '-' || IsDigit(s[0]);
    }
  }

  /** The tag of filter `m`, looked up by the id of filter `n`. */
  lemma ShownLookup(m: FilterName, n: FilterName, f: Filters, currentYear: int)
    ensures TagWithId(Shown(FixedTag(m, f, currentYear)), n.Id()) == if m == n then FixedTag(n, f, currentYear) else None
  {
    var t := FixedTag(m, f, currentYear);
    if t.Some? {
      assert [t.value][1..] == [];
      if m != n {
        IdsDiffer(m, n);
      }
    }
  }

  /** The first tag with an id among seven groups of tags. */
  lemma {:induction false} LookupSeven(a: seq<Tag>, b: seq<Tag>, c: seq<Tag>, d: seq<Tag>, e: seq<Tag>, g: seq<Tag>, h: seq<Tag>, id: string)
    ensures TagWithId(a + b + c + d + e + g + h, id) ==
      if TagWithId(a, id).Some? then TagWithId(a, id)
      else if TagWithId(b, id).Some? then TagWithId(b, id)
      else if TagWithId(c, id).Some? then TagWithId(c, id)
      else if TagWithId(d, id).Some? then TagWithId(d, id)
      else if TagWithId(e, id).Some? then TagWithId(e, id)
      else if TagWithId(g, id).Some? then TagWithId(g, id)
      else TagWithId(h, id)
  {
    TagWithIdAppend(a, b, id);
    TagWithIdAppend(a + b, c, id);
    TagWithIdAppend(a + b + c, d, id);
    TagWithIdAppend(a + b + c + d, e, id);
    TagWithIdAppend(a + b + c + d + e, g, id);
    TagWithIdAppend(a + b + c + d + e + g, h, id);
  }

  /** Looking a filter's tag up by its id in the bar finds exactly the tag
      of that filter: each filter that is not a genre has one tag at most,
      shown exactly when the filter is active. */
  lemma TagLookup(f: Filters, genres: seq<Item>, currentYear: int, n: FilterName)
    ensures TagWithId(Tags(f, genres, currentYear), n.Id()) == FixedTag(n, f, currentYear)
  {
    GenreTagsHaveNoFixedId(f.genres, genres, n);
    ShownLookup(ByQuery, n, f, currentYear);
    ShownLookup(ByType, n, f, currentYear);
    ShownLookup(ByStatus, n, f, currentYear);
    ShownLookup(ByYear, n, f, currentYear);
    ShownLookup(ByRating, n, f, currentYear);
    ShownLookup(BySort, n, f, currentYear);
    LookupSeven(Shown(FixedTag(ByQuery, f, currentYear)), GenreTags(f.genres, genres),
                Shown(FixedTag(ByType, f, currentYear)), Shown(FixedTag(ByStatus, f, currentYear)),
                Shown(FixedTag(ByYear, f, currentYear)), Shown(FixedTag(ByRating, f, currentYear)),
                Shown(FixedTag(BySort, f, currentYear)), n.Id());
  }

  /** Lines 77-79 and 97-125: the bar holds a search tag exactly when the
      query is not empty, a type or status tag exactly when one is chosen,
      a year tag exactly when the range is narrower than 1960 to the
      current year, a rating tag exactly when it is narrower than 0 to 10,
      and a sort tag exactly when the key or order differs from score,
      descending; the sort tag's arrow points down exactly for descending. */
  lemma {:induction false} TagVisibility(f: Filters, genres: seq<Item>, currentYear: int)
    ensures var tags := Tags(f, genres, currentYear);
      && (TagWithId(tags, "search").Some? <==> f.query != "")
      && (TagWithId(tags, "type").Some? <==> f.kind != "")
      && (TagWithId(tags, "status").Some? <==> f.status != "")
      && (TagWithId(tags, "year").Some? <==> f.yearMin > DefaultYearMin || f.yearMax < currentYear)
      && (TagWithId(tags, "rating").Some? <==> f.ratingMin > 0 || f.ratingMax < RatingScale)
      && (TagWithId(tags, "sort").Some? <==> f.sort != DefaultSort || f.sortOrder != DefaultSortOrder)
      && (TagWithId(tags, "sort").Some? ==>
            TagWithId(tags, "sort").value.value == SortText(f.sort) + " " + Arrow(f.sortOrder))
  {
    TagLookup(f, genres, currentYear, ByQuery);
    TagLookup(f, genres, currentYear, ByType);
    TagLookup(f, genres, currentYear, ByStatus);
    TagLookup(f, genres, currentYear, ByYear);
    TagLookup(f, genres, currentYear, ByRating);
    TagLookup(f, genres, currentYear, BySort);
  }

  /** Filters are active exactly when a genre is selected or some other
      filter has a tag. */
  lemma ActiveIffSomeTagCondition(f: Filters, currentYear: int)
    ensures HasActiveFilters(f, currentYear) <==>
      |f.genres| > 0 || exists n: FilterName :: FixedTag(n, f, currentYear).Some?
  {
    if HasActiveFilters(f, currentYear) && |f.genres| == 0 {
      var n :=
        if f.query != "" then ByQuery
        else if f.kind != "" then ByType
        else if f.status != "" then ByStatus
        else if f.yearMin > DefaultYearMin || f.yearMax < currentYear then ByYear
        else if f.ratingMin > 0 || f.ratingMax < RatingScale then ByRating
        else BySort;
      assert FixedTag(n, f, currentYear).Some?;
    }
  }

  /** A tag is shown only while some filter is active. */
  lemma TagsOnlyWhenActive(f: Filters, genres: seq<Item>, currentYear: int)
    ensures Tags(f, genres, currentYear) != [] ==> HasActiveFilters(f, currentYear)
  {
    if !HasActiveFilters(f, currentYear) {
      assert f.genres == [];
    }
  }

  /** While filters are active and every selected genre is known, the bar
      shows at least one tag. */
  lemma ActiveShowsTags(f: Filters, genres: seq<Item>, currentYear: int)
    requires HasActiveFilters(f, currentYear)
    requires forall i :: 0 <= i < |f.genres| ==> FindGenre(genres, f.genres[i]).Some?
    ensures Tags(f, genres, currentYear) != []
  {
    if |f.genres| > 0 {
      assert GenreTag(f.genres[0], genres).Some?;
      assert GenreTag(f.genres[0], genres).value in GenreTags(f.genres, genres);
    } else {
      ActiveIffSomeTagCondition(f, currentYear);
      var n: FilterName :| FixedTag(n, f, currentYear).Some?;
      TagLookup(f, genres, currentYear, n);
    }
  }

  /** A selection whose genres are not loaded yet makes the filters active
      but shows no tag: the bar is rendered empty. */
  lemma UnknownGenreShowsEmptyBar(currentYear: int, genreId: string)
    ensures Render(DefaultFilters(currentYear).(genres := [genreId]), [], currentYear) == Some([])
  {
    var f := DefaultFilters(currentYear).(genres := [genreId]);
    assert GenreTags(f.genres, []) == [] by {
      assert f.genres[1..] == [];
    }
    assert Tags(f, [], currentYear) == [];
  }

  /** At the defaults the component renders nothing. */
  lemma DefaultsRenderNothing(genres: seq<Item>, currentYear: int)
    ensures Render(DefaultFilters(currentYear), genres, currentYear) == None
  {
  }

  /** Every tag of the bar is a genre tag or the tag of a filter that is
      not a genre. */
  lemma TagOrigin(f: Filters, genres: seq<Item>, currentYear: int, t: Tag)
    requires t in Tags(f, genres, currentYear)
    ensures t in GenreTags(f.genres, genres) || exists n: FilterName :: FixedTag(n, f, currentYear) == Some(t)
  {
    if t !in GenreTags(f.genres, genres) {
      var n :=
        if t in Shown(FixedTag(ByQuery, f, currentYear)) then ByQuery
        else if t in Shown(FixedTag(ByType, f, currentYear)) then ByType
        else if t in Shown(FixedTag(ByStatus, f, currentYear)) then ByStatus
        else if t in Shown(FixedTag(ByYear, f, currentYear)) then ByYear
        else if t in Shown(FixedTag(ByRating, f, currentYear)) then ByRating
        else BySort;
      assert FixedTag(n, f, currentYear) == Some(t);
    }
  }

  /** A genre tag's id is a decimal string when genre ids are not
      negative. */
  lemma {:induction false} GenreTagIdIsDigits(selected: seq<string>, genres: seq<Item>, t: Tag)
    requires forall i :: 0 <= i < |genres| ==> genres[i].malId >= 0
    requires t in GenreTags(selected, genres)
    ensures IsDigitString(t.id)
  {
    var g := FindGenre(genres, t.id).value;
    assert IntToString(g.malId) == t.id;
  }

  /** A decimal string is not the id of a filter that is not a genre. */
  lemma DigitsAreNoFilterId(id: string, n: FilterName)
    requires IsDigitString(id)
    ensures id != n.Id()
  {
    assert IsDigit(id[0]) && 'a' <= n.Id()[0] <= 'z';
  }

  /** The tag of filter `m` is never found under another id. */
  lemma ShownOtherId(m: FilterName, f: Filters, currentYear: int, id: string)
    requires id != m.Id()
    ensures TagWithId(Shown(FixedTag(m, f, currentYear)), id) == None
  {
    var t := FixedTag(m, f, currentYear);
    if t.Some? {
      assert [t.value][1..] == [];
    }
  }

  /** An id that is not selected has no genre tag. */
  lemma GenreTagsWithout(selected: seq<string>, genres: seq<Item>, id: string)
    requires id !in selected
    ensures TagWithId(GenreTags(selected, genres), id) == None
  {
  }

  /** Clearing filter `n` makes it inactive. */
  lemma ClearedFilterHasNoTag(n: FilterName, f: Filters, currentYear: int)
    ensures FixedTag(n, ClearFilter(f, n.Id(), currentYear), currentYear) == None
  {
    match n
    case ByQuery =>
    case ByType =>
    case ByStatus =>
    case ByYear =>
    case ByRating =>
    case BySort =>
  }

  /** Removing a genre through its tag's button hides that tag. */
  lemma {:induction false} GenreTagHidden(f: Filters, genres: seq<Item>, currentYear: int, t: Tag)
    requires forall i :: 0 <= i < |genres| ==> genres[i].malId >= 0
    requires t in GenreTags(f.genres, genres)
    ensures TagWithId(Tags(ClearFilter(f, t.id, currentYear), genres, currentYear), t.id) == None
  {
    var id := t.id;
    GenreTagIdIsDigits(f.genres, genres, t);
    DigitsAreNoFilterId(id, ByQuery);
    DigitsAreNoFilterId(id, ByType);
    DigitsAreNoFilterId(id, ByStatus);
    DigitsAreNoFilterId(id, ByYear);
    DigitsAreNoFilterId(id, ByRating);
    DigitsAreNoFilterId(id, BySort);
    var g := ClearFilter(f, id, currentYear);
    assert g == f.(genres := RemoveAll(f.genres, id));
    GenreTagsWithout(g.genres, genres, id);
    ShownOtherId(ByQuery, g, currentYear, id);
    ShownOtherId(ByType, g, currentYear, id);
    ShownOtherId(ByStatus, g, currentYear, id);
    ShownOtherId(ByYear, g, currentYear, id);
    ShownOtherId(ByRating, g, currentYear, id);
    ShownOtherId(BySort, g, currentYear, id);
    LookupSeven(Shown(FixedTag(ByQuery, g, currentYear)), GenreTags(g.genres, genres),
                Shown(FixedTag(ByType, g, currentYear)), Shown(FixedTag(ByStatus, g, currentYear)),
                Shown(FixedTag(ByYear, g, currentYear)), Shown(FixedTag(ByRating, g, currentYear)),
                Shown(FixedTag(BySort, g, currentYear)), id);
  }

  /** Removing a filter through its tag's button hides that tag. A genre
      id is removed from the selection, so a genre tag goes too, provided
      genre ids are not negative. */
  lemma {:induction false} RemovingTagHidesIt(f: Filters, genres: seq<Item>, currentYear: int, t: Tag)
    requires forall i :: 0 <= i < |genres| ==> genres[i].malId >= 0
    requires t in Tags(f, genres, currentYear)
    ensures TagWithId(Tags(ClearFilter(f, t.id, currentYear), genres, currentYear), t.id) == None
  {
    TagOrigin(f, genres, currentYear, t);
    if t in GenreTags(f.genres, genres) {
      GenreTagHidden(f, genres, currentYear, t);
    } else {
      var n: FilterName :| FixedTag(n, f, currentYear) == Some(t);
      ClearedFilterHasNoTag(n, f, currentYear);
      TagLookup(ClearFilter(f, n.Id(), currentYear), genres, currentYear, n);
    }
  }
}
