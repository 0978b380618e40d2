/** The advanced filter panel (src/components/FilterPanel.jsx): local copies
    of the provider's type, status, sort and range cells that the controls
    edit, the range-slider handlers that keep each minimum at or below its
    maximum, and the apply button that hands the copies to the provider. */
module Panel {
  import opened Wrappers
  import opened Text
  import opened Lists
  import opened Catalogue
  import opened AnimeApi
  import opened AnimeContext
  import opened ActiveFilters

  /** Lines 50-56 and 67-73: the minimum thumb moved to `value`; the
      maximum is raised to it when the thumb passes it. */
  function AfterMinChange(value: int, max: int): (r: (int, int))
    ensures r.0 == value && r.0 <= r.1
    ensures r.1 == max <==> value <= max
    ensures r.1 != max ==> r.1 == value
  {
    if value > max then (value, value) else (value, max)
  }

  /** Lines 58-64 and 75-81: the maximum thumb moved to `value`; the
      minimum is lowered to it when the thumb passes it. */
  function AfterMaxChange(min: int, value: int): (r: (int, int))
    ensures r.1 == value && r.0 <= r.1
    ensures r.0 == min <==> min <= value
    ensures r.0 != min ==> r.0 == value
  {
    if value < min then (value, value) else (min, value)
  }

  /** A thumb that stays inside the range leaves the other thumb where it
      was, and moving a thumb back to where it was changes nothing. */
  lemma ThumbInsideRangeKeepsOther(min: int, max: int, value: int)
    requires min <= value <= max
    ensures AfterMinChange(value, max) == (value, max)
    ensures AfterMaxChange(min, value) == (min, value)
  {
  }

  /** Moving the minimum thumb past the maximum and back does not restore
      the maximum: the range keeps the raised upper end. */
  lemma MinThumbPassingIsNotUndone(min: int, max: int, value: int)
    requires min <= max < value
    ensures AfterMinChange(min, AfterMinChange(value, max).1) == (min, value)
  {
  }

  /** Lines 238-244: the type choices, code and caption, the first being
      "all types". */
  const TypeChoices: seq<(string, string)> :=
    [("", "Все типы"), ("TV", "TV Сериал"), ("Movie", "Фильм"), ("OVA", "OVA"),
     ("ONA", "ONA"), ("Special", "Спешл"), ("Music", "Клип")]

  /** Lines 265-268. */
  const StatusChoices: seq<(string, string)> :=
    [("", "Все статусы"), ("Airing", "Выходит"), ("Complete", "Завершён"), ("Upcoming", "Анонсирован")]

  /** Lines 323-328. */
  const SortChoices: seq<(string, string)> :=
    [("score", "По рейтингу"), ("popularity", "По популярности"), ("title", "По названию"),
     ("start_date", "По дате выхода"), ("end_date", "По дате завершения"), ("episodes", "По кол-ву эпизодов")]

  /** Lines 349-350. */
  const SortOrderChoices: seq<(string, string)> :=
    [("desc", "По убыванию"), ("asc", "По возрастанию")]

  predicate HasCode(choices: seq<(string, string)>, code: string) {
    exists i :: 0 <= i < |choices| && choices[i].0 == code
  }

  /** Every code the panel offers, except the empty "all" choice, is shown
      on its tag with the same caption the panel gives it. */
  lemma PanelCaptionsMatchTags()
    ensures forall i :: 0 <= i < |TypeChoices| && TypeChoices[i].0 != "" ==>
      TypeText(TypeChoices[i].0) == TypeChoices[i].1
    ensures forall i :: 0 <= i < |StatusChoices| && StatusChoices[i].0 != "" ==>
      StatusText(StatusChoices[i].0) == StatusChoices[i].1
    ensures forall i :: 0 <= i < |SortChoices| ==> SortText(SortChoices[i].0) == SortChoices[i].1
  {
    forall i | 0 <= i < |TypeChoices| && TypeChoices[i].0 != ""
      ensures TypeText(TypeChoices[i].0) == TypeChoices[i].1
    {
      assert TypeChoices[i].0 in TypeOptions;
    }
    forall i | 0 <= i < |StatusChoices| && StatusChoices[i].0 != ""
      ensures StatusText(StatusChoices[i].0) == StatusChoices[i].1
    {
      assert StatusChoices[i].0 in StatusOptions;
    }
    forall i | 0 <= i < |SortChoices|
      ensures SortText(SortChoices[i].0) == SortChoices[i].1
    {
      assert SortChoices[i].0 in SortOptions;
    }
  }

  /** The panel offers exactly the type codes the tags have captions for,
      besides the empty "all types" choice. */
  lemma PanelOffersTaggedTypes()
    ensures forall code :: code in TypeOptions <==> code != "" && HasCode(TypeChoices, code)
  {
    forall code | code in TypeOptions ensures HasCode(TypeChoices, code) {
      if code == "TV" { assert TypeChoices[1].0 == code; }
      else if code == "Movie" { assert TypeChoices[2].0 == code; }
      else if code == "OVA" { assert TypeChoices[3].0 == code; }
      else if code == "ONA" { assert TypeChoices[4].0 == code; }
      else if code == "Special" { assert TypeChoices[5].0 == code; }
      else { assert TypeChoices[6].0 == code; }
    }
  }

  /** The panel offers exactly the status codes the tags have captions
      for, besides the empty "all statuses" choice. */
  lemma PanelOffersTaggedStatuses()
    ensures forall code :: code in StatusOptions <==> code != "" && HasCode(StatusChoices, code)
  {
    forall code | code in StatusOptions ensures HasCode(StatusChoices, code) {
      if code == "Airing" { assert StatusChoices[1].0 == code; }
      else if code == "Complete" { assert StatusChoices[2].0 == code; }
      else { assert StatusChoices[3].0 == code; }
    }
  }

  /** The panel offers exactly the sort keys the tags have captions for
      and both orders; the default key and order are among the choices. */
  lemma PanelOffersTaggedSorts()
    ensures forall code :: code in SortOptions <==> HasCode(SortChoices, code)
    ensures HasCode(SortChoices, DefaultSort) && HasCode(SortOrderChoices, DefaultSortOrder)
    ensures forall code :: HasCode(SortOrderChoices, code) <==> code == "desc" || code == "asc"
  {
    forall code | code in SortOptions ensures HasCode(SortChoices, code) {
      if code == "score" { assert SortChoices[0].0 == code; }
      else if code == "popularity" { assert SortChoices[1].0 == code; }
      else if code == "title" { assert SortChoices[2].0 == code; }
      else if code == "start_date" { assert SortChoices[3].0 == code; }
      else if code == "end_date" { assert SortChoices[4].0 == code; }
      else { assert SortChoices[5].0 == code; }
    }
    assert SortChoices[0].0 == DefaultSort;
    assert SortOrderChoices[0].0 == DefaultSortOrder;
    assert SortOrderChoices[1].0 == "asc";
  }

  /** Lines 131-152: the captions of the selected genres in the dropdown
      head, in the order of the selection; unknown ids show nothing. */
  function SelectedNames(selected: seq<string>, genres: seq<Item>): (r: seq<string>)
    ensures |r| <= |selected|
    decreases |selected|
  {
    if selected == [] then []
    else
      var rest := SelectedNames(selected[1..], genres);
      match FindGenre(genres, selected[0])
      case Some(g) => [g.name] + rest
      case None => rest
  }

  /** The values of a row of tags, in order. */
  function TagValues(tags: seq<Tag>): (r: seq<string>)
    ensures |r| == |tags| && forall i :: 0 <= i < |tags| ==> r[i] == tags[i].value
  {
    seq(|tags|, i requires 0 <= i < |tags| => tags[i].value)
  }

  /** The dropdown head names the same genres, in the same order, as the
      genre tags of the active-filter bar. */
  lemma {:induction false} SelectedNamesAreTagValues(selected: seq<string>, genres: seq<Item>)
    ensures SelectedNames(selected, genres) == TagValues(GenreTags(selected, genres))
    decreases |selected|
  {
    if selected != [] {
      SelectedNamesAreTagValues(selected[1..], genres);
      NamesAndTagsStep(selected, genres);
    }
  }

  /** One selected id further: the head and the bar both gain the genre's
      name exactly when the genre is loaded. */
  lemma NamesAndTagsStep(selected: seq<string>, genres: seq<Item>)
    requires selected != []
    requires SelectedNames(selected[1..], genres) == TagValues(GenreTags(selected[1..], genres))
    ensures SelectedNames(selected, genres) == TagValues(GenreTags(selected, genres))
  {
    var tags := GenreTags(selected[1..], genres);
    var o := FindGenre(genres, selected[0]);
    if o.Some? {
      var t := Tag(GenreLabel, o.value.name, selected[0]);
      assert GenreTags(selected, genres) == [t] + tags;
      assert TagValues([t] + tags) == [t.value] + TagValues(tags);
    }
  }

  /** Lines 178-181: the option of genre `g` is marked while its printed
      id is selected. */
  predicate OptionMarked(selected: seq<string>, g: Item) {
    IntToString(g.malId) in selected
  }

  /** The panel's editable state. */
  class FilterPanel {
    var localType: string
    var localStatus: string
    var localSort: string
    var localSortOrder: string
    var localYearMin: int
    var localYearMax: int
    var localRatingMin: int
    var localRatingMax: int
    var isGenreDropdownActive: bool
    /** The provider whose cells the panel mirrors. */
    const provider: AnimeProvider

    /** Both local ranges are in order. */
    predicate Ordered()
      reads this`localYearMin, this`localYearMax, this`localRatingMin, this`localRatingMax
    {
      localYearMin <= localYearMax && localRatingMin <= localRatingMax
    }

    /** Every local copy equals the provider's cell. */
    predicate Mirrors()
      reads this`localType, this`localStatus, this`localSort, this`localSortOrder
      reads this`localYearMin, this`localYearMax, this`localRatingMin, this`localRatingMax
      reads provider`filters
    {
      var f := provider.filters;
      && localType == f.kind && localStatus == f.status
      && localSort == f.sort && localSortOrder == f.sortOrder
      && localYearMin == f.yearMin && localYearMax == f.yearMax
      && localRatingMin == f.ratingMin && localRatingMax == f.ratingMax
    }

    /** Lines 27-35: the copies start as the provider's cells, the genre
        dropdown closed. */
    constructor (p: AnimeProvider)
      requires p.Valid()
      ensures provider == p && Mirrors() && Ordered() && !isGenreDropdownActive
    {
      provider := p;
      var f := p.filters;
      localType, localStatus, localSort, localSortOrder := f.kind, f.status, f.sort, f.sortOrder;
      localYearMin, localYearMax, localRatingMin, localRatingMax := f.yearMin, f.yearMax, f.ratingMin, f.ratingMax;
      isGenreDropdownActive := false;
    }

    /** Lines 38-47: when a provider cell changes, every copy is
        overwritten with the provider's value. */
    method Sync()
      requires provider.Valid()
      modifies this`localType, this`localStatus, this`localSort, this`localSortOrder
      modifies this`localYearMin, this`localYearMax, this`localRatingMin, this`localRatingMax
      ensures Mirrors() && Ordered()
    {
      var f := provider.filters;
      localType, localStatus, localSort, localSortOrder := f.kind, f.status, f.sort, f.sortOrder;
      localYearMin, localYearMax, localRatingMin, localRatingMax := f.yearMin, f.yearMax, f.ratingMin, f.ratingMax;
    }

    /** Lines 50-56. */
    method HandleYearMinChange(value: int)
      modifies this`localYearMin, this`localYearMax
      ensures (localYearMin, localYearMax) == AfterMinChange(value, old(localYearMax))
      ensures localYearMin <= localYearMax
    {
      localYearMin := value;
      if value > localYearMax {
        localYearMax := value;
      }
    }

    /** Lines 58-64. */
    method HandleYearMaxChange(value: int)
      modifies this`localYearMin, this`localYearMax
      ensures (localYearMin, localYearMax) == AfterMaxChange(old(localYearMin), value)
      ensures localYearMin <= localYearMax
    {
      localYearMax := value;
      if value < localYearMin {
        localYearMin := value;
      }
    }

    /** Lines 67-73. */
    method HandleRatingMinChange(value: int)
      modifies this`localRatingMin, this`localRatingMax
      ensures (localRatingMin, localRatingMax) == AfterMinChange(value, old(localRatingMax))
      ensures localRatingMin <= localRatingMax
    {
      localRatingMin := value;
      if value > localRatingMax {
        localRatingMax := value;
      }
    }

    /** Lines 75-81. */
    method HandleRatingMaxChange(value: int)
      modifies this`localRatingMin, this`localRatingMax
      ensures (localRatingMin, localRatingMax) == AfterMaxChange(old(localRatingMin), value)
      ensures localRatingMin <= localRatingMax
    {
      localRatingMax := value;
      if value < localRatingMin {
        localRatingMin := value;
      }
    }

    /** Lines 237, 264, 322 and 348: a select control sets its copy. */
    method SelectType(value: string)
      modifies this`localType
      ensures localType == value
    {
      localType := value;
    }

    method SelectStatus(value: string)
      modifies this`localStatus
      ensures localStatus == value
    {
      localStatus := value;
    }

    method SelectSort(value: string)
      modifies this`localSort
      ensures localSort == value
    {
      localSort := value;
    }

    method SelectSortOrder(value: string)
      modifies this`localSortOrder
      ensures localSortOrder == value
    {
      localSortOrder := value;
    }

    /** Lines 84-88: the year range, then the rating range, then type,
        status, sort and order go to the provider, which closes the panel
        and reloads page 1. With the copies in order the provider takes
        them unchanged, so the provider's cells mirror the panel afterwards
        and the re-sync that follows changes nothing. The genres, favourites,
        selected anime, tab and initialisation flag are left as they are. */
    method HandleApplyFilters(script: seq<Outcome>)
      requires provider.Valid() && |script| > MaxRetries
      modifies provider`filters, provider`isFilterPanelActive, provider`isFetching, provider`error
      modifies provider`animeList, provider`hasNextPage, provider`totalResults, provider`page, provider.api
      ensures provider.Valid()
      ensures provider.filters == old(provider.filters).(
        yearMin := ClampRange(localYearMin, localYearMax).0, yearMax := localYearMax,
        ratingMin := ClampRange(localRatingMin, localRatingMax).0, ratingMax := localRatingMax,
        kind := localType, status := localStatus, sort := localSort, sortOrder := localSortOrder)
      ensures Ordered() ==> Mirrors()
      ensures !provider.isFilterPanelActive
      ensures provider.Refetched(script)
    {
      provider.UpdateYearRange(localYearMin, localYearMax);
      provider.UpdateRatingRange(localRatingMin, localRatingMax);
      provider.ApplyFilterChanges(localType, localStatus, localSort, localSortOrder, script);
    }

    /** Lines 91-93. */
    method ToggleGenreDropdown()
      modifies this`isGenreDropdownActive
      ensures isGenreDropdownActive == !old(isGenreDropdownActive)
    {
      isGenreDropdownActive := !isGenreDropdownActive;
    }

    /** Line 181: clicking the option of genre `g` toggles its printed
        id in the provider's selection, which flips the option's mark and
        leaves every other id as it was. */
    method ClickGenreOption(g: Item)
      requires provider.Valid()
      modifies provider`filters
      ensures provider.Valid()
      ensures provider.filters == old(provider.filters).(genres := ToggleId(old(provider.filters.genres), IntToString(g.malId)))
      ensures OptionMarked(provider.filters.genres, g) <==> !OptionMarked(old(provider.filters.genres), g)
    {
      provider.ToggleGenre(IntToString(g.malId));
    }

    /** Lines 139-144: the remove button of a selected genre in the dropdown
        head drops it from the selection. */
    method RemoveSelectedGenre(genreId: string)
      requires provider.Valid() && genreId in provider.filters.genres
      modifies provider`filters
      ensures provider.Valid()
      ensures genreId !in provider.filters.genres
      ensures forall x :: x != genreId ==> (x in provider.filters.genres <==> x in old(provider.filters.genres))
      ensures provider.filters == old(provider.filters).(genres := RemoveAll(old(provider.filters.genres), genreId))
      ensures IsSubsequence(provider.filters.genres, old(provider.filters.genres))
    {
      ToggleIdKeepsOrder(provider.filters.genres, genreId);
      provider.ToggleGenre(genreId);
    }

    /** Line 369: the reset button. The genres, favourites, selected anime,
        tab and initialisation flag are left as they are. */
    method HandleReset(script: seq<Outcome>)
      requires provider.Valid() && |script| > MaxRetries
      modifies provider`filters, provider`isFilterPanelActive, provider`isFetching, provider`error
      modifies provider`animeList, provider`hasNextPage, provider`totalResults, provider`page, provider.api
      ensures provider.Valid()
      ensures provider.filters == DefaultFilters(provider.currentYear)
      ensures !provider.isFilterPanelActive
      ensures provider.Refetched(script)
    {
      provider.ResetAllFilters(script);
    }

    /** Line 110: the close button. */
    method HandleClose()
      modifies provider`isFilterPanelActive
      ensures !provider.isFilterPanelActive
    {
      provider.CloseFilterPanel();
    }
  }
}
