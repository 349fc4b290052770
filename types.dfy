/** The records the frontend receives from the API
    (frontend-react/src/types/index.ts). JSON `null` and a missing field are
    both `None`. Scores are reals; floating-point rounding is not modelled. */
module Types {
  import opened Optional

  /** -1 = Left, 0 = Center, 1 = Right. */
  type Ideology = x: int | -1 <= x <= 1

  /** A `year_end` that the API sends either as a number or as a string. */
  datatype YearValue = YearNumber(n: int) | YearText(text: string)

  /** One country of the map data. The map-data endpoint of the backend in
      this repository sends no `ideology`, so there it is always `None`. */
  datatype MapDataItem = MapDataItem(
    country: string,
    avgPopulism: real,
    region: string,
    wbRegion: string,
    ideology: Option<int>,
    numTerms: int)

  /** One leader term of a country timeline. */
  datatype TimelineItem = TimelineItem(
    leader: Option<string>,
    party: Option<string>,
    term: int,
    yearStart: int,
    yearEnd: YearValue,
    totalPopulism: real,
    campaign: Option<real>,
    famous: Option<real>,
    international: Option<real>,
    ribbon: Option<real>)

  /** One speech of the speech explorer. */
  datatype SpeechItem = SpeechItem(
    filename: string,
    country: string,
    leader: string,
    party: Option<string>,
    ideology: Option<int>,
    ideologyLabel: string,
    speechType: string,
    populismScore: real,
    yearStart: int,
    yearEnd: YearValue,
    term: int)
}
