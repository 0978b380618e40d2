/** The records the catalogue passes between the request hook, the provider
    and the filter components, and the filter defaults they all compare with.

    Scores and ratings are numbers with at most two decimals; they are held
    here as integer hundredths, so the rating scale 0..10 is 0..1000. */
module Catalogue {
  import opened Wrappers

  /** Lower bound of the year slider and the year filter's default. */
  const DefaultYearMin := 1960
  /** The top of the rating scale (10.0) and the rating filter's default maximum. */
  const RatingScale := 1000
  const DefaultSort := "score"
  const DefaultSortOrder := "desc"

  /** One entry of a `data` array: an anime (`mal_id`, `title`, `score`,
      `type`, `images.jpg.image_url`), a genre (`mal_id`, `name`), or a
      character or staff entry, of which only the position matters. A
      missing image URL is "". */
  datatype Item = Item(malId: int, title: string, score: Option<int>, kind: string, imageUrl: string, name: string)

  /** `pagination.has_next_page` and `pagination.items.total` (a missing
      total is 0, as `total || 0` reads it). */
  datatype Pagination = Pagination(hasNextPage: bool, total: int)

  /** The filter criteria the provider keeps in state cells: selected genre
      ids (decimal strings), type, status, sort key and order, search query,
      year range and rating range (hundredths). */
  datatype Filters = Filters(
    genres: seq<string>,
    kind: string,
    status: string,
    sort: string,
    sortOrder: string,
    query: string,
    yearMin: int,
    yearMax: int,
    ratingMin: int,
    ratingMax: int)

  /** The state every filter starts from and is reset to. */
  function DefaultFilters(currentYear: int): Filters {
    Filters([], "", "", DefaultSort, DefaultSortOrder, "", DefaultYearMin, currentYear, 0, RatingScale)
  }
}
