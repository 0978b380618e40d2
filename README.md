# Anime catalogue: request hook, provider and filter components in Dafny

This project models the data-coordination core of a React anime catalogue
that reads the Jikan v4 API, and proves properties of that model.

- **The request hook** (`useAnimeAPI`, module `AnimeApi`, file
  `anime_api.dfy`):
  - a rate gate that spaces requests at least 300 ms apart;
  - a registry of abort controllers keyed by URL, where a new request
    aborts the earlier one for the same URL and `cancelAllRequests`
    aborts them all;
  - the retry policy for HTTP 429 and for network errors, with at most
    three retries;
  - the catalogue query builder, which omits parameters left at their
    defaults;
  - the shape checks of the genre, catalogue and detail responses.

  `fetchWithTimeout` runs over a scripted sequence of transport outcomes.
  Its recursion is kept, with the retry count decreasing towards the bound.
  Each attempt is judged by a policy function, so the timeout handling as
  written and the corrected one share one proof. The hook's methods, and
  so the provider and the panel, run the policy as written
  (`AttemptStepAsWritten`, `Request`): a timeout is judged as an abort.
  The corrected policy (`AttemptStep`, `RequestCorrected`) is proved
  alongside it (see Findings). Both retries
  (lines 74 and 106) return the next request without awaiting it, so a
  retried request's failure is handled by its own catch block, and a
  request makes at most four fetches (`Run`, `RetryBoundKept`).
- **The provider** (`AnimeContext`, module `AnimeContext`, file
  `anime_context.dfy`):
  - a class whose fields are the provider's state cells;
  - the list algebra as pure functions: the client-side rating filter,
    the page merge without repeated ids, the genre and favourite toggles,
    the range clamp and filter removal;
  - the operations that load pages, reset filters and reload, react to
    scrolling, and toggle favourites.
- **The active-filter bar** (`ActiveFilters`, module `ActiveFilters`, file
  `active_filters.dfy`): when the bar is shown, and which tags it holds,
  with their captions and ids.
- **The filter panel** (`FilterPanel`, module `Panel`, file
  `filter_panel.dfy`): the panel's local copies of the filter cells, the
  range-slider handlers, apply and re-sync, the genre dropdown and the
  option tables.

Support modules:

- `Text` covers the host string operations the core relies on: number
  printing, `trim`, `join`, `split` and `includes`.
- `Lists` covers `filter` by value and subsequences.
- `Catalogue` holds the shared records and defaults.
- `Wrappers` holds `Option` and `Result`.

Scores and ratings are integer hundredths, so 10.0 is 1000.

Three inputs are parameters instead of being read from the host:

- the clock (`Date.now()`) is the hook's `clock` field, advanced by waits;
- the current year is a constant of the provider;
- the network is the scripted outcome sequence.

Two behaviours of the code shape what callers see:

- **Aborted request.** `fetchWithTimeout` rethrows an abort as "Request
  was aborted" (src/hooks/useAnimeAPI.jsx:96-99), and the catalogue fetch
  turns that message into an empty last page with total 0
  (src/hooks/useAnimeAPI.jsx:200-205). On page 1 the provider then empties
  the list and reports no next page (`AbortedFirstPageLooksEmpty`).
- **Settling by URL.** When a request settles, the hook deletes the
  registry entry for its URL, whichever controller that entry holds. A
  superseded request can so drop the controller of the newer request for
  the same URL (see Findings).

## Model

| member | source | states |
|---|---|---|
| Text.NatToString | src/hooks/useAnimeAPI.jsx:168 | a natural number prints as a non-empty string of decimal digits with no leading zero unless it is 0 |
| Text.NatToStringRoundTrip | src/hooks/useAnimeAPI.jsx:168 | reading the printed digits back gives the number |
| Text.NatToStringInjective | src/hooks/useAnimeAPI.jsx:168 | different page numbers print differently |
| Text.IntToString | src/components/ActiveFilters.jsx:82 | `toString()` of an integer is non-empty, starts with '-' exactly when the number is negative, and is a decimal string when it is not |
| Text.IntToStringRoundTrip | src/components/ActiveFilters.jsx:82 | the printed integer is an optional minus sign and digits, and reads back as the number |
| Text.IntToStringInjective | src/components/ActiveFilters.jsx:82 | different genre ids print differently, so a printed id names one genre |
| Text.HundredthsToString | src/hooks/useAnimeAPI.jsx:187 | a printed rating is all digits exactly when it is a whole number (otherwise it has a decimal point) |
| Text.HundredthsRoundTrip | src/hooks/useAnimeAPI.jsx:187 | a printed rating is digits, optionally a point and one or two fraction digits, whose integer part reads back as `h / 100` and whose fraction digits as `h % 100` |
| Text.HundredthsToStringInjective | src/hooks/useAnimeAPI.jsx:187 | different ratings print differently |
| Text.TrimIsInnerSlice | src/hooks/useAnimeAPI.jsx:180 | `query.trim()` is the slice of the query between its leading and trailing spaces, and only spaces lie outside it |
| Text.TrimHasNoOuterSpace | src/hooks/useAnimeAPI.jsx:180 | the trimmed query neither starts nor ends with a space |
| Text.TrimEmptyIff | src/hooks/useAnimeAPI.jsx:180 | the trimmed query is empty exactly when the query is all spaces |
| Text.TrimIdempotent | src/hooks/useAnimeAPI.jsx:180 | trimming twice gives the same as trimming once |
| Text.SplitJoinRoundTrip | src/hooks/useAnimeAPI.jsx:175 | the comma-joined `genres` parameter splits back into the selected ids when no id holds a comma |
| Text.ContainsFirstChar | src/hooks/useAnimeAPI.jsx:103 | a string that includes a non-empty substring holds its first character |
| Text.MissingFirstChar | src/hooks/useAnimeAPI.jsx:103 | a message without the first letter of "NetworkError" never includes it |
| Lists.RemoveAll | src/contexts/AnimeContext.jsx:144 | `filter((v) => v !== x)` drops every `x`, keeps every other element and adds nothing |
| Lists.RemoveAllIsSubsequence | src/contexts/AnimeContext.jsx:144 | the remaining ids keep their order |
| Lists.RemoveAllAbsent | src/contexts/AnimeContext.jsx:304 | removing an id that is not selected changes nothing |
| Lists.RemoveAllAppended | src/contexts/AnimeContext.jsx:138-147 | appending an absent id and removing it again restores the list |
| AnimeApi.GateWait | src/hooks/useAnimeAPI.jsx:29-36 | the wait brings the issue time to at least 300 ms after the last issue, and a positive wait lands exactly on it |
| AnimeApi.GateWaitExact | src/hooks/useAnimeAPI.jsx:29-36 | the wait is `300 - elapsed` when less than 300 ms elapsed, and 0 otherwise |
| AnimeApi.SpacedPairwise | src/hooks/useAnimeAPI.jsx:29-39 | issues spaced one after the other are spaced pairwise |
| AnimeApi.Caught | src/hooks/useAnimeAPI.jsx:102-108 | an error that is not an abort is retried exactly when `retryCount < 3` and its message includes "NetworkError", and is rethrown unchanged otherwise |
| AnimeApi.Classify | src/hooks/useAnimeAPI.jsx:54-91 | a response counts as data only for a 2xx status with a parsed body, which it carries |
| AnimeApi.AttemptStep | src/hooks/useAnimeAPI.jsx:65-109 | an attempt asks for a retry only while `retryCount < 3` |
| AnimeApi.Run | src/hooks/useAnimeAPI.jsx:27-111 | a request makes between 1 and `4 - retryCount` fetches, so at most three retries in all |
| AnimeApi.RunAttempts | src/hooks/useAnimeAPI.jsx:27-111 | every fetch of a request but the last was retried, and the last one gave the result |
| AnimeApi.RunAfterRetries | src/hooks/useAnimeAPI.jsx:27-111 | conversely, `n` retried fetches followed by one that concludes determine the result and the fetch count `n + 1` |
| AnimeApi.RunRetried | src/hooks/useAnimeAPI.jsx:74-76 | a retried attempt hands the rest of the request to the next retry count, plus one fetch |
| AnimeApi.TooManyRequestsThenSuccess | src/hooks/useAnimeAPI.jsx:68-78 | a 429 followed by a success returns the success body after two fetches |
| AnimeApi.TooManyRequestsExhausted | src/hooks/useAnimeAPI.jsx:68-78 | four 429 answers end in "Rate limit exceeded" after four fetches |
| AnimeApi.AbortNotRetried | src/hooks/useAnimeAPI.jsx:96-99 | an abort ends the request at once as "Request was aborted" |
| AnimeApi.NetworkErrorRetried | src/hooks/useAnimeAPI.jsx:102-106 | a "NetworkError" failure is retried below the bound and rethrown unchanged at it |
| AnimeApi.OtherNetworkErrorPropagates | src/hooks/useAnimeAPI.jsx:108 | any other network failure propagates unchanged without a retry |
| AnimeApi.HttpErrorNotRetried | src/hooks/useAnimeAPI.jsx:80-84 | a status that is neither ok nor 429 fails with the body's message, or "API responded with status: N" without one, and is not retried when that message does not mention "NetworkError" |
| AnimeApi.TimeoutNotRetried | src/hooks/useAnimeAPI.jsx:54-59 | with the timeout reported as such, a timed-out fetch fails with the timeout error and is not retried |
| AnimeApi.RetryBoundKept | src/hooks/useAnimeAPI.jsx:68-76 | a 429 answer followed by "NetworkError" failures fails with the last network error after four fetches, because the retried request's failures are handled by its own catch block at its own retry count |
| AnimeApi.AttemptStepAsWritten | src/hooks/useAnimeAPI.jsx:54-59 | the hook as written judges every outcome but a timeout as the corrected attempt does |
| AnimeApi.TimeoutAsWrittenLooksEmpty | src/hooks/useAnimeAPI.jsx:54-59 | as written, a timeout surfaces as an abort and reaches the provider as an empty last page |
| AnimeApi.TimeoutReported | src/hooks/useAnimeAPI.jsx:54-59 | corrected, a timeout reaches the provider as the timeout error |
| AnimeApi.TimedOutRequest | src/hooks/useAnimeAPI.jsx:54-59 | a request whose first fetch times out ends after it: as written as an abort that the catalogue fetch turns into an empty page, corrected as the timeout error |
| AnimeApi.Neutralise | src/hooks/useAnimeAPI.jsx:200-205 | the catch block yields the neutral result exactly for the message "Request was aborted" and returns every other error unchanged |
| AnimeApi.InvalidFormatIsNotAbort | src/hooks/useAnimeAPI.jsx:192-193 | a format error is never mistaken for an abort |
| AnimeApi.InvalidShapesFail | src/hooks/useAnimeAPI.jsx:192-194 | a body without a `data` array, or a catalogue body without `pagination`, fails as an invalid format |
| AnimeApi.AbortedIsNeutral | src/hooks/useAnimeAPI.jsx:201-203 | an aborted request yields no genres, no entries, or an empty last page with total 0 |
| AnimeApi.OtherErrorsPropagate | src/hooks/useAnimeAPI.jsx:204-205 | every other error reaches the caller unchanged |
| AnimeApi.DetailKeepsFirstEntries | src/hooks/useAnimeAPI.jsx:230 | characters and staff are the first min(12, n) entries, in order |
| AnimeApi.LookupPresent | src/hooks/useAnimeAPI.jsx:168-187 | a parameter set once reads back as its value when it is set and as absent otherwise |
| AnimeApi.ParamOrderPlaces | src/hooks/useAnimeAPI.jsx:168-187 | every parameter has exactly one place in the order the URL sets them |
| AnimeApi.Settings | src/hooks/useAnimeAPI.jsx:168-187 | one setting per parameter, in the order the URL sets them |
| AnimeApi.BuildParamsLookup | src/hooks/useAnimeAPI.jsx:168-187 | a parameter read back by name gives its setting's value when the request sets it, and nothing otherwise |
| AnimeApi.FixedParamsValues | src/hooks/useAnimeAPI.jsx:163-171 | `page` is clamped to at least 1, `limit` is 24, and `order_by` and `sort` default to score and desc |
| AnimeApi.FilterParamsValues | src/hooks/useAnimeAPI.jsx:174-187 | `genres`, `type`, `status`, `q`, `start_date`, `end_date` and `min_score` are sent exactly when their filter is set: a non-empty selection, type, status or trimmed query, a start year above 1960, an end year below the current year, a minimum rating above 0; each with the joined, trimmed, dated or printed value |
| AnimeApi.AnimeApi.constructor | src/hooks/useAnimeAPI.jsx:19-22 | the clock starts at the given time, the last request time at 0, and the registry and the abort log empty |
| AnimeApi.AnimeApi.AdvanceClock | src/hooks/useAnimeAPI.jsx:29 | time moves forward and the gate's bookkeeping is kept |
| AnimeApi.AnimeApi.Throttle | src/hooks/useAnimeAPI.jsx:29-39 | the clock advances by the gate's wait, the issue time is recorded, and issues stay 300 ms apart |
| AnimeApi.AnimeApi.Register | src/hooks/useAnimeAPI.jsx:42-51 | the controller stored for the URL, if any, is aborted; a new one is stored; other URLs keep theirs; the registry still holds exactly the live requests |
| AnimeApi.AnimeApi.Release | src/hooks/useAnimeAPI.jsx:69-94 | corrected settle: the request's own controller is dropped, a newer one for its URL is kept, and the registry still holds exactly the live requests |
| AnimeApi.AnimeApi.ReleaseAsWritten | src/hooks/useAnimeAPI.jsx:69-94 | settle as written: the URL's entry is deleted whichever controller it holds; while the entry still holds the request's own controller this is the corrected settle and the registry still holds exactly the live requests |
| AnimeApi.AnimeApi.CancelAllRequests | src/hooks/useAnimeAPI.jsx:116-121 | every stored controller is aborted, the map is empty, and no request is left live |
| AnimeApi.AnimeApi.Attempt | src/hooks/useAnimeAPI.jsx:27-91 | one gated, registered and settled fetch whose step is the policy's verdict; a retry waits 600 ms; the settle finds the request's own controller in the entry, where the settle as written and the corrected one agree |
| AnimeApi.AnimeApi.FetchWithTimeout | src/hooks/useAnimeAPI.jsx:27-111 | the result and fetch count are those of `Run`; the URL's entry is gone afterwards; fetches of one request are at least 600 ms apart |
| AnimeApi.AnimeApi.FetchGenres | src/hooks/useAnimeAPI.jsx:126-142 | the genre list is the shaped result of the request for the genre URL, a timeout judged as an abort |
| AnimeApi.AnimeApi.FetchAnime | src/hooks/useAnimeAPI.jsx:147-209 | the page is the shaped result of the request for the URL built from the filters, a timeout judged as an abort |
| AnimeApi.AnimeApi.FetchDetail | src/hooks/useAnimeAPI.jsx:214-271 | a falsy id fails before any request; otherwise the first entries of the characters or staff request, a timeout judged as an abort |
| AnimeApi.SupersededReleaseAsWritten | src/hooks/useAnimeAPI.jsx:94 | as written, a superseded request's settle lets the newer request escape `cancelAllRequests` |
| AnimeApi.SupersededRelease | src/hooks/useAnimeAPI.jsx:94 | corrected, `cancelAllRequests` aborts the newer request |
| AnimeContext.KeepPassing | src/contexts/AnimeContext.jsx:209 | kept items pass the maximum (missing or zero score, or at most the maximum) and every passing item is kept |
| AnimeContext.RatingFilterKeeps | src/contexts/AnimeContext.jsx:207-210 | an item is shown exactly when it arrived and the maximum is 10 or the item passes it |
| AnimeContext.RatingFilterIsSubsequence | src/contexts/AnimeContext.jsx:207-210 | the filtered page keeps the arrival order |
| AnimeContext.KeepPassingDistinct | src/contexts/AnimeContext.jsx:209 | filtering a page with distinct ids leaves distinct ids |
| AnimeContext.Unseen | src/contexts/AnimeContext.jsx:218-220 | the appended items are the page's items whose id is not listed, and every such item is appended |
| AnimeContext.UnseenAppend | src/contexts/AnimeContext.jsx:218-220 | the selection is made item by item: a page in two parts gives the selection of the first part followed by that of the second |
| AnimeContext.UnseenSingle | src/contexts/AnimeContext.jsx:218-220 | one item is kept exactly when its id is not listed, so a page item that occurs twice is appended twice |
| AnimeContext.MergePageExtends | src/contexts/AnimeContext.jsx:216-222 | the old list is a prefix of the merged one and the rest is an order-preserving selection of the page |
| AnimeContext.UnseenDistinct | src/contexts/AnimeContext.jsx:218-220 | a selection of a page with distinct ids has distinct ids |
| AnimeContext.MergePageDistinct | src/contexts/AnimeContext.jsx:216-222 | if neither the list nor the page repeats an id, the merged list does not either |
| AnimeContext.EmptyFirstPageEnds | src/contexts/AnimeContext.jsx:230-244 | an empty first page never offers a next page |
| AnimeContext.LaterPageKeepsList | src/contexts/AnimeContext.jsx:213-244 | on a later page the listed items stay in front, and an error leaves the listing as it was |
| AnimeContext.SettleKeepsIdsDistinct | src/contexts/AnimeContext.jsx:213-222 | if the API pages never repeat an id, neither does the list |
| AnimeContext.SettleShowsPassingOnly | src/contexts/AnimeContext.jsx:206-222 | below 10, every listed item passes the maximum, provided the items already listed on a later page did |
| AnimeContext.AbortedFirstPageLooksEmpty | src/contexts/AnimeContext.jsx:213-232 | an aborted first page shows no items, no next page, total 0 and no error |
| AnimeContext.TimedOutFirstPageLooksEmpty | src/contexts/AnimeContext.jsx:213-232 | a first page whose fetch times out shows the same empty catalogue with no error |
| AnimeContext.ClampRange | src/contexts/AnimeContext.jsx:110-135 | the maximum is kept, and the minimum becomes the smaller of the minimum and the maximum |
| AnimeContext.ToggleId | src/contexts/AnimeContext.jsx:138-147 | the toggled id is selected afterwards exactly when it was not before, an unselected id is appended at the end, and every other id keeps its state |
| AnimeContext.ToggleIdKeepsOrder | src/contexts/AnimeContext.jsx:144 | deselecting a genre keeps the other selected ids in their order |
| AnimeContext.ToggleIdTwice | src/contexts/AnimeContext.jsx:138-147 | toggling an unselected genre twice restores the selection |
| AnimeContext.ClearFilterKeepsOrder | src/contexts/AnimeContext.jsx:285-305 | removing a filter keeps both ranges in order |
| AnimeContext.ClearGenreIds | src/contexts/AnimeContext.jsx:302-304 | removing all-digit ids only touches the selection, and removing every selected one empties it |
| AnimeContext.RemovingEveryFilterResetsAll | src/contexts/AnimeContext.jsx:285-323 | removing every tag one by one gives the same filters as `resetAllFilters` |
| AnimeContext.WithoutId | src/contexts/AnimeContext.jsx:454 | no entry with the id is left, every other entry is kept, nothing is added |
| AnimeContext.ToggleFavoriteList | src/contexts/AnimeContext.jsx:448-465 | the anime is a favourite afterwards exactly when it was not; other favourites are kept; a new favourite's entry is appended at the end |
| AnimeContext.ToggleFavoriteKeepsOrder | src/contexts/AnimeContext.jsx:454 | removing a favourite keeps the other favourites in their order |
| AnimeContext.ToggleFavoriteTwice | src/contexts/AnimeContext.jsx:448-465 | toggling a non-favourite twice restores the favourites |
| AnimeContext.AnimeProvider.constructor | src/contexts/AnimeContext.jsx:18-50 | the cells start at their defaults, with the favourites read from storage |
| AnimeContext.AnimeProvider.UpdateYearRange | src/contexts/AnimeContext.jsx:110-121 | the year range becomes the clamped range; nothing else changes |
| AnimeContext.AnimeProvider.UpdateRatingRange | src/contexts/AnimeContext.jsx:124-135 | the rating range becomes the clamped range; nothing else changes |
| AnimeContext.AnimeProvider.ToggleGenre | src/contexts/AnimeContext.jsx:138-147 | the selection is toggled at the id |
| AnimeContext.AnimeProvider.ToggleFilterPanel | src/contexts/AnimeContext.jsx:150-158 | the panel flag flips |
| AnimeContext.AnimeProvider.CloseFilterPanel | src/contexts/AnimeContext.jsx:161-166 | the panel is closed |
| AnimeContext.AnimeProvider.BeginFetch | src/contexts/AnimeContext.jsx:172-185 | a later page is dropped while a request is in flight; otherwise loading starts, the error is cleared and page 1 empties the list |
| AnimeContext.AnimeProvider.CompleteFetch | src/contexts/AnimeContext.jsx:206-244 | the listing becomes `Settle` of the result, an error is reported, and loading ends |
| AnimeContext.AnimeProvider.FetchAnime | src/contexts/AnimeContext.jsx:169-247 | the duplicate-request guard, then the listing settled by the hook's shaped answer for the current filters, with loading over |
| AnimeContext.AnimeProvider.ResetAndFetch | src/contexts/AnimeContext.jsx:250-263 | every request is cancelled and page 1 is reloaded from an empty list |
| AnimeContext.AnimeProvider.ApplyFilterChanges | src/contexts/AnimeContext.jsx:266-277 | type, status, sort and order are set, the panel closes, page 1 is reloaded |
| AnimeContext.AnimeProvider.RemoveFilter | src/contexts/AnimeContext.jsx:285-310 | only the named filter returns to its default, an all-digit id removes that genre, then page 1 is reloaded |
| AnimeContext.AnimeProvider.ResetAllFilters | src/contexts/AnimeContext.jsx:313-327 | every filter returns to its default, the panel closes, page 1 is reloaded |
| AnimeContext.AnimeProvider.HandleSearch | src/contexts/AnimeContext.jsx:330-336 | the query is set and page 1 is reloaded |
| AnimeContext.AnimeProvider.ClearSearch | src/contexts/AnimeContext.jsx:339-342 | the query is emptied and page 1 is reloaded |
| AnimeContext.AnimeProvider.FetchGenres | src/contexts/AnimeContext.jsx:353-361 | the genre list is loaded, or the genres notice is set and the list kept |
| AnimeContext.AnimeProvider.HandleScroll | src/contexts/AnimeContext.jsx:365-381 | the page advances by exactly one only near the bottom, not loading, with a next page and a non-empty list |
| AnimeContext.AnimeProvider.PageEffect | src/contexts/AnimeContext.jsx:390-394 | a page beyond the first is loaded and merged once initialised and while no request is in flight, with its notice set and loading over; otherwise the listing, the notice and the loading flag are unchanged |
| AnimeContext.AnimeProvider.Initialize | src/contexts/AnimeContext.jsx:397-412 | the genres and then page 1 are loaded once; a second call leaves the listing, genres, notice and loading flag unchanged |
| AnimeContext.AnimeProvider.Unmount | src/contexts/AnimeContext.jsx:415-417 | unmounting aborts every stored request and empties the registry |
| AnimeContext.AnimeProvider.ShowAnimeDetail | src/contexts/AnimeContext.jsx:421-427 | the anime is selected and the info tab shown |
| AnimeContext.AnimeProvider.HideModal | src/contexts/AnimeContext.jsx:430-435 | no anime is selected |
| AnimeContext.AnimeProvider.ToggleFavorite | src/contexts/AnimeContext.jsx:443-472 | nothing happens without a selection; otherwise the favourites are toggled and the stored copy equals them |
| AnimeContext.AnimeProvider.FetchDetail | src/contexts/AnimeContext.jsx:475-514 | a falsy id yields no entries without a request; otherwise the hook's answer, errors included |
| ActiveFilters.LabelOf | src/components/ActiveFilters.jsx:39-72 | a code with a label shows its label, an unknown code shows itself |
| ActiveFilters.Arrow | src/components/ActiveFilters.jsx:121 | the arrow is "↓" exactly for descending order |
| ActiveFilters.FindGenre | src/components/ActiveFilters.jsx:82 | a found genre is loaded and its id prints as the selected id; none is found only when no loaded genre prints so |
| ActiveFilters.GenreTags | src/components/ActiveFilters.jsx:81-95 | each genre tag belongs to a selected, known id, and every selected known genre has its tag |
| ActiveFilters.GenreTagsAppend | src/components/ActiveFilters.jsx:81-95 | the tags of a selection made in two parts are those of the first part followed by those of the second, so the bar keeps selection order |
| ActiveFilters.GenreTagsSingle | src/components/ActiveFilters.jsx:81-95 | one selected id gives its genre's tag, or none when the genre is not loaded |
| ActiveFilters.FixedTag | src/components/ActiveFilters.jsx:97-125 | a filter's tag carries that filter's id |
| ActiveFilters.Render | src/components/ActiveFilters.jsx:22-36 | nothing is rendered exactly when no filter is active; otherwise the tags |
| ActiveFilters.GenreTagsHaveNoFixedId | src/components/ActiveFilters.jsx:81-95 | no genre tag carries the id of another filter |
| ActiveFilters.TagLookup | src/components/ActiveFilters.jsx:77-125 | looking a filter's id up in the bar finds exactly that filter's tag |
| ActiveFilters.TagVisibility | src/components/ActiveFilters.jsx:77-125 | the search, type, status, year, rating and sort tags appear exactly under their conditions, with the sort arrow |
| ActiveFilters.ActiveIffSomeTagCondition | src/components/ActiveFilters.jsx:22-32 | filters are active exactly when a genre is selected or some other tag's condition holds |
| ActiveFilters.TagsOnlyWhenActive | src/components/ActiveFilters.jsx:22-36 | a tag is shown only while some filter is active |
| ActiveFilters.ActiveShowsTags | src/components/ActiveFilters.jsx:22-95 | with filters active and every selected genre loaded, the bar holds a tag |
| ActiveFilters.UnknownGenreShowsEmptyBar | src/components/ActiveFilters.jsx:81-95 | a selected genre that is not loaded makes the bar render empty |
| ActiveFilters.DefaultsRenderNothing | src/components/ActiveFilters.jsx:34-36 | at the defaults nothing is rendered |
| ActiveFilters.TagOrigin | src/components/ActiveFilters.jsx:77-125 | every tag is a genre tag or the tag of one other filter |
| ActiveFilters.GenreTagIdIsDigits | src/components/ActiveFilters.jsx:82-89 | with non-negative genre ids a genre tag's id is all digits |
| ActiveFilters.ClearedFilterHasNoTag | src/contexts/AnimeContext.jsx:285-301 | removing a filter by its id makes its tag condition false |
| ActiveFilters.GenreTagHidden | src/components/ActiveFilters.jsx:90 | removing a genre through its tag hides that tag, for a non-negative genre id |
| ActiveFilters.RemovingTagHidesIt | src/components/ActiveFilters.jsx:77-125 | removing any tag's filter through its button hides the tag |
| Panel.AfterMinChange | src/components/FilterPanel.jsx:50-56 | the minimum takes the value and the maximum is raised to it exactly when the value passes it |
| Panel.AfterMaxChange | src/components/FilterPanel.jsx:58-64 | the maximum takes the value and the minimum is lowered to it exactly when the value passes it |
| Panel.ThumbInsideRangeKeepsOther | src/components/FilterPanel.jsx:50-64 | a thumb moved inside the range leaves the other one where it was |
| Panel.MinThumbPassingIsNotUndone | src/components/FilterPanel.jsx:50-56 | moving the minimum past the maximum and back keeps the raised maximum |
| Panel.PanelCaptionsMatchTags | src/components/FilterPanel.jsx:237-328 | each type, status and sort option is captioned as its tag is |
| Panel.PanelOffersTaggedTypes | src/components/FilterPanel.jsx:237-245 | the type options are exactly the captioned codes plus "all" |
| Panel.PanelOffersTaggedStatuses | src/components/FilterPanel.jsx:264-269 | the status options are exactly the captioned codes plus "all" |
| Panel.PanelOffersTaggedSorts | src/components/FilterPanel.jsx:322-351 | the sort options are exactly the captioned keys, both orders are offered, and so are the defaults |
| Panel.SelectedNames | src/components/FilterPanel.jsx:130-154 | there are no more captions than selected ids |
| Panel.SelectedNamesAreTagValues | src/components/FilterPanel.jsx:134-152 | the dropdown head names the same genres, in the same order, as the genre tags of the bar |
| Panel.FilterPanel.constructor | src/components/FilterPanel.jsx:27-35 | the copies start equal to the provider's cells, in order, with the dropdown closed |
| Panel.FilterPanel.Sync | src/components/FilterPanel.jsx:38-47 | all eight copies are overwritten with the provider's cells |
| Panel.FilterPanel.HandleYearMinChange | src/components/FilterPanel.jsx:50-56 | the year copies become `AfterMinChange` of the value, so min ≤ max afterwards |
| Panel.FilterPanel.HandleYearMaxChange | src/components/FilterPanel.jsx:58-64 | the year copies become `AfterMaxChange` of the value, so min ≤ max afterwards |
| Panel.FilterPanel.HandleRatingMinChange | src/components/FilterPanel.jsx:67-73 | the rating copies become `AfterMinChange` of the value, so min ≤ max afterwards |
| Panel.FilterPanel.HandleRatingMaxChange | src/components/FilterPanel.jsx:75-81 | the rating copies become `AfterMaxChange` of the value, so min ≤ max afterwards |
| Panel.FilterPanel.SelectType | src/components/FilterPanel.jsx:237 | the type copy takes the chosen value |
| Panel.FilterPanel.SelectStatus | src/components/FilterPanel.jsx:264 | the status copy takes the chosen value |
| Panel.FilterPanel.SelectSort | src/components/FilterPanel.jsx:322 | the sort copy takes the chosen value |
| Panel.FilterPanel.SelectSortOrder | src/components/FilterPanel.jsx:348 | the order copy takes the chosen value |
| Panel.FilterPanel.HandleApplyFilters | src/components/FilterPanel.jsx:84-88 | the provider takes the copies (ranges clamped), closes the panel and reloads page 1; with ordered copies it mirrors them exactly; the loaded genres, favourites, selected anime, tab and initialisation flag stay |
| Panel.FilterPanel.ToggleGenreDropdown | src/components/FilterPanel.jsx:91-93 | the dropdown flag flips |
| Panel.FilterPanel.ClickGenreOption | src/components/FilterPanel.jsx:178-181 | the genre's printed id is toggled, so its option's mark flips |
| Panel.FilterPanel.RemoveSelectedGenre | src/components/FilterPanel.jsx:139-144 | the genre's id is removed from the selection, the other ids keep their order, and every other filter is unchanged |
| Panel.FilterPanel.HandleReset | src/components/FilterPanel.jsx:369 | every filter returns to its default and page 1 is reloaded; the loaded genres, favourites, selected anime, tab and initialisation flag stay |
| Panel.FilterPanel.HandleClose | src/components/FilterPanel.jsx:110 | the panel is closed |

## Left out

- Concurrency: timers, `Promise.race` against the 15 s timeout, the
  propagation of abort signals and the interleaving of several requests in
  flight. Each request runs to completion. Timeout and abort are outcomes
  of the scripted transport. The provider's `fetchAnime` is split at its
  `await` into `BeginFetch` and `CompleteFetch`, so the in-flight guard can
  still be stated.
- The timeout timer of a request that has already settled still fires later
  and aborts a finished controller. This is not modelled, because it has
  no effect on state.
- `fetch`, `response.json()`, `URL` and `searchParams` are foreign calls. A
  parsed body is the `Json` datatype, and a body that fails to parse is an
  outcome. Parameters are an ordered list of key/value strings joined
  without percent-encoding.
- `localStorage`, the DOM, `document.body.style` and the scroll geometry are
  host state. Stored favourites are a constructor argument and a field.
  Scrolling is the boolean `nearBottom`.
- React batching, `stateRef` and effect dependency arrays: each operation
  is modelled by its final state, read at the time it runs.
- `setViewModeAndSave`, `setActiveTabHandler`, `initializeFilters` and
  `updateActiveFilters` either do no work or only store a view setting;
  the view mode is not modelled.
- The provider's response check (src/contexts/AnimeContext.jsx:202-204) is
  not modelled separately. It never fires, because the hook has already
  checked the shape or returned the neutral page.
- The catch block of the initialisation effect
  (src/contexts/AnimeContext.jsx:404-407) is unreachable, because both
  calls catch their own errors, so it is not modelled.
- The Russian texts of the provider's notices are left out. A notice
  records which load failed and, for the catalogue, the hook's error
  message.
- `Number.parseInt` and `Number.parseFloat` are left out. Sliders hand the
  handlers numbers, so handlers take integers (ratings in hundredths), and
  NaN is not modelled.
- Floating point is left out. A score with more than two decimals, or a
  rating that is not a multiple of 0.01, cannot be represented.
- The slider progress styles are left out. They are CSS percentages
  computed in floating point.
- Text.IntToString: prints in plain decimal notation. JavaScript switches
  to exponent notation from 1e21, which is not modelled.
- ActiveFilters.LabelOf: does not model keys that the JavaScript object
  literal inherits from its prototype, such as "constructor".
- AnimeApi.Classify: its own contract states only the success case. The
  error cases are stated by `HttpErrorNotRetried`, `NetworkErrorRetried`,
  `OtherNetworkErrorPropagates`, `TimeoutNotRetried` and
  `TooManyRequestsExhausted`.
- AnimeApi.AttemptStep: its own contract states only the retry bound. The
  cases are stated by the lemmas named for Classify.
- AnimeApi.Run: requires at least as many scripted outcomes as attempts
  are possible, because the transport always answers.
- AnimeApi.AnimeApi.FetchDetail: requires `what` to be "characters" or
  "staff", the two functions it stands for.
- Panel.SelectedNames: its own contract only bounds the length. Its
  content is stated by `SelectedNamesAreTagValues`.
- ActiveFilters.RemovingTagHidesIt: requires genre ids that are not
  negative. A negative id prints with a minus sign, the removal check
  `/^\d+$/` rejects it, and that tag then stays.
- ActiveFilters.GenreTagHidden: requires a genre id that is not negative,
  for the same reason as RemovingTagHidesIt.

## Findings

| source | as written | input that shows it | evidently intended | confidence | as-written member | corrected member |
|---|---|---|---|---|---|---|
| src/hooks/useAnimeAPI.jsx:94 | when a request settles, the catch block deletes the map entry for its URL, whichever controller the entry holds | request A for URL u, then request B for u: B aborts A, A's catch deletes B's entry, and `cancelAllRequests` no longer aborts B | drop the entry only while it still holds the request's own controller | medium, not executed | AnimeApi.SupersededReleaseAsWritten | AnimeApi.SupersededRelease |
| src/hooks/useAnimeAPI.jsx:54-59 | the timeout callback aborts the controller before rejecting, so the race settles with the AbortError, "Request was aborted" | a page-1 fetch that takes longer than 15000 ms: the provider shows an empty catalogue with no error | report "Request timed out after 15000ms" to the caller | medium, not executed | AnimeApi.TimeoutAsWrittenLooksEmpty | AnimeApi.TimeoutReported |
