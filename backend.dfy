/** The query semantics of the FastAPI backend (backend/main.py) over the
    loaded data frame, taken as a sequence of rows. pandas' NaN is `None`
    throughout; every boolean mask keeps the surviving rows in frame order. */
module Backend {
  import opened Optional
  import opened Text
  import opened Types
  import opened Seqs

  // ---------------------------------------------------------------------
  // The data frame
  // ---------------------------------------------------------------------

  /** A row of the wide CSV file as `read_csv` gives it: `yearend` is text
      (the column mixes years with the word "current"). Only the columns the
      endpoints read are kept. */
  datatype CsvRow = CsvRow(
    country: string,
    leader: Option<string>,
    party: Option<string>,
    term: int,
    yearbegin: int,
    yearend: string,
    region: Option<string>,
    wbRegion: Option<string>,
    totalaverage: Option<real>,
    campaignAverage: Option<real>,
    famousAverage: Option<real>,
    internationalAverage: Option<real>,
    ribbonAverage: Option<real>)

  /** A row of the frame after startup, with the derived `yearend_numeric`. */
  datatype Row = Row(csv: CsvRow, yearendNumeric: Option<int>)

  const CurrentYear := 2026

  /** `yearend_numeric`: "current" becomes 2026, anything else goes through
      `pd.to_numeric(..., errors='coerce')`, which is a parameter here
      (`None` for text that is not a number). */
  function YearEndNumeric(yearend: string, toNumeric: string -> Option<int>): (n: Option<int>)
    ensures yearend == "current" ==> n == Some(CurrentYear)
    ensures yearend != "current" ==> n == toNumeric(yearend)
  {
    if yearend == "current" then Some(CurrentYear) else toNumeric(yearend)
  }

  /** The two column assignments of the startup hook; the rest of the row is
      kept as read. */
  function LoadFrame(csv: seq<CsvRow>, toNumeric: string -> Option<int>): (rows: seq<Row>)
    ensures |rows| == |csv|
    ensures forall i :: 0 <= i < |rows| ==>
      rows[i].csv == csv[i] && rows[i].yearendNumeric == YearEndNumeric(csv[i].yearend, toNumeric)
  {
    seq(|csv|, i requires 0 <= i < |csv| => Row(csv[i], YearEndNumeric(csv[i].yearend, toNumeric)))
  }

  /** An `HTTPException`. */
  datatype HttpError = HttpError(status: int, detail: string)

  const NotLoaded := HttpError(500, "Data not loaded")

  /** Python's truthiness of an optional integer query parameter. */
  predicate Given(v: Option<int>) {
    v.Some? && v.value != 0
  }

  // ---------------------------------------------------------------------
  // Row filters
  // ---------------------------------------------------------------------

  /** The year-range test shared by `get_data` and `get_map_data`. A NaN
      `yearend_numeric` fails every comparison. */
  predicate InYearRange(r: Row, yearStart: Option<int>, yearEnd: Option<int>) {
    if Given(yearStart) && Given(yearEnd) then
      r.csv.yearbegin <= yearEnd.value && r.yearendNumeric.Some? && r.yearendNumeric.value >= yearStart.value
    else if Given(yearStart) then
      r.yearendNumeric.Some? && r.yearendNumeric.value >= yearStart.value
    else if Given(yearEnd) then
      r.csv.yearbegin <= yearEnd.value
    else true
  }

  function YearMask(yearStart: Option<int>, yearEnd: Option<int>): Row -> bool {
    (x: Row) => InYearRange(x, yearStart, yearEnd)
  }

  function YearFilter(rows: seq<Row>, yearStart: Option<int>, yearEnd: Option<int>): (r: seq<Row>)
    ensures forall x :: x in r <==> x in rows && InYearRange(x, yearStart, yearEnd)
    ensures multiset(r) <= multiset(rows)
    ensures IsSubsequence(r, rows)
    ensures forall x :: multiset(r)[x] == if InYearRange(x, yearStart, yearEnd) then multiset(rows)[x] else 0
  {
    FilterMultiset(rows, YearMask(yearStart, yearEnd));
    FilterIsSubsequence(rows, YearMask(yearStart, yearEnd));
    FilterCount(rows, YearMask(yearStart, yearEnd));
    Filter(rows, YearMask(yearStart, yearEnd))
  }

  /** With both bounds a term is kept iff it overlaps the period: it began
      no later than the end and ended no earlier than the start. */
  lemma YearFilterOverlap(rows: seq<Row>, yearStart: int, yearEnd: int, x: Row)
    requires yearStart != 0 && yearEnd != 0
    ensures x in YearFilter(rows, Some(yearStart), Some(yearEnd)) <==>
      x in rows && x.csv.yearbegin <= yearEnd && x.yearendNumeric.Some? && yearStart <= x.yearendNumeric.value
  {
  }

  /** The two-sided filter is the start-only filter followed by the
      end-only filter. */
  lemma {:induction false} YearFilterComposes(rows: seq<Row>, yearStart: int, yearEnd: int)
    requires yearStart != 0 && yearEnd != 0
    ensures YearFilter(rows, Some(yearStart), Some(yearEnd)) ==
      YearFilter(YearFilter(rows, Some(yearStart), None), None, Some(yearEnd))
  {
    FilterFilter(rows, YearMask(Some(yearStart), None), YearMask(None, Some(yearEnd)),
                 YearMask(Some(yearStart), Some(yearEnd)));
  }

  /** A bound of 0 is falsy and so counts as absent; without bounds every
      row is kept, in order. */
  lemma {:induction false} YearFilterZeroIsAbsent(rows: seq<Row>, yearStart: Option<int>, yearEnd: Option<int>)
    ensures YearFilter(rows, Some(0), yearEnd) == YearFilter(rows, None, yearEnd)
    ensures YearFilter(rows, yearStart, Some(0)) == YearFilter(rows, yearStart, None)
    ensures YearFilter(rows, None, None) == rows
  {
    FilterCongruent(rows, YearMask(Some(0), yearEnd), YearMask(None, yearEnd));
    FilterCongruent(rows, YearMask(yearStart, Some(0)), YearMask(yearStart, None));
    FilterKeepsAll(rows, YearMask(None, None));
  }

  /** A term that is still running counts as ending in 2026. */
  lemma CurrentTermReachesPresent(rows: seq<Row>, x: Row, yearStart: int)
    requires x in rows && x.csv.yearend == "current" && yearStart != 0 && yearStart <= CurrentYear
    requires x.yearendNumeric == YearEndNumeric(x.csv.yearend, _ => None)
    ensures x in YearFilter(rows, Some(yearStart), None)
  {
  }

  /** `min_populism`: fires whenever the parameter is given, 0.0 included;
      a NaN `totalaverage` fails the comparison. */
  function MinPopulismFilter(rows: seq<Row>, minPopulism: Option<real>): (r: seq<Row>)
    ensures minPopulism.None? ==> r == rows
    ensures minPopulism.Some? ==> forall x :: x in r <==>
      x in rows && x.csv.totalaverage.Some? && x.csv.totalaverage.value >= minPopulism.value
    ensures IsSubsequence(r, rows)
    ensures minPopulism.Some? ==> forall x ::
      multiset(r)[x] == (if x.csv.totalaverage.Some? && x.csv.totalaverage.value >= minPopulism.value
                         then multiset(rows)[x] else 0)
  {
    if minPopulism.None? then
      SubsequenceOfSelf(rows);
      rows
    else
      var keep := (x: Row) => x.csv.totalaverage.Some? && x.csv.totalaverage.value >= minPopulism.value;
      FilterIsSubsequence(rows, keep);
      FilterCount(rows, keep);
      Filter(rows, keep)
  }

  /** Unlike the year bounds, a minimum of 0.0 is applied: it drops the rows
      without a total score. */
  lemma MinPopulismZeroDropsNaN(rows: seq<Row>, x: Row)
    requires x in rows && x.csv.totalaverage.None?
    ensures x !in MinPopulismFilter(rows, Some(0.0))
    ensures x in MinPopulismFilter(rows, None)
  {
  }

  /** The `country` and `leader` filters of `get_data`: exact equality,
      applied only when the parameter is a non-empty string. */
  function CountryFilter(rows: seq<Row>, country: Option<string>): (r: seq<Row>)
    ensures !(country.Some? && Truthy(country.value)) ==> r == rows
    ensures country.Some? && Truthy(country.value) ==> forall x :: x in r <==> x in rows && x.csv.country == country.value
    ensures IsSubsequence(r, rows)
    ensures country.Some? && Truthy(country.value) ==> forall x ::
      multiset(r)[x] == (if x.csv.country == country.value then multiset(rows)[x] else 0)
  {
    if country.Some? && Truthy(country.value) then
      FilterIsSubsequence(rows, CountryIs(country.value));
      FilterCount(rows, CountryIs(country.value));
      Filter(rows, CountryIs(country.value))
    else
      SubsequenceOfSelf(rows);
      rows
  }

  function LeaderFilter(rows: seq<Row>, leader: Option<string>): (r: seq<Row>)
    ensures !(leader.Some? && Truthy(leader.value)) ==> r == rows
    ensures leader.Some? && Truthy(leader.value) ==> forall x :: x in r <==> x in rows && x.csv.leader == leader
    ensures IsSubsequence(r, rows)
    ensures leader.Some? && Truthy(leader.value) ==> forall x ::
      multiset(r)[x] == (if x.csv.leader == leader then multiset(rows)[x] else 0)
  {
    if leader.Some? && Truthy(leader.value) then
      var keep := (x: Row) => x.csv.leader == leader;
      FilterIsSubsequence(rows, keep);
      FilterCount(rows, keep);
      Filter(rows, keep)
    else
      SubsequenceOfSelf(rows);
      rows
  }

  // ---------------------------------------------------------------------
  // get_data: records and NaN cleaning
  // ---------------------------------------------------------------------

  /** A cell of a `to_dict('records')` record. */
  datatype Cell = NaN | Null | Text(s: string) | Number(x: real)

  function TextCell(v: Option<string>): Cell {
    match v
    case Some(s) => Text(s)
    case None => NaN
  }

  function NumberCell(v: Option<real>): Cell {
    match v
    case Some(x) => Number(x)
    case None => NaN
  }

  /** The frame columns the model keeps, `yearend_numeric` included. */
  datatype Column = Country | Leader | Party | Term | YearBegin | YearEnd | Region | WbRegion
                  | ScoreOf(score: ScoreColumn) | YearEndNumericColumn

  /** The column's name, the key of its cell in a JSON record. */
  function ColumnName(c: Column): (name: string)
    ensures |name| > 0
  {
    match c
    case Country => "country"
    case Leader => "leader"
    case Party => "party"
    case Term => "term"
    case YearBegin => "yearbegin"
    case YearEnd => "yearend"
    case Region => "region"
    case WbRegion => "wb_region"
    case ScoreOf(TotalAverage) => "totalaverage"
    case ScoreOf(CampaignAverage) => "campaign_average"
    case ScoreOf(FamousAverage) => "famous_average"
    case ScoreOf(InternationalAverage) => "international_average"
    case ScoreOf(RibbonAverage) => "ribbon_average"
    case YearEndNumericColumn => "yearend_numeric"
  }

  const RecordColumns: set<Column> := {
    Country, Leader, Party, Term, YearBegin, YearEnd, Region, WbRegion,
    ScoreOf(TotalAverage), ScoreOf(CampaignAverage), ScoreOf(FamousAverage),
    ScoreOf(InternationalAverage), ScoreOf(RibbonAverage), YearEndNumericColumn}

  lemma ScoreColumnsKept()
    ensures forall c :: ScoreOf(c) in RecordColumns
  {
    forall c ensures ScoreOf(c) in RecordColumns {
      match c
      case TotalAverage =>
      case CampaignAverage =>
      case FamousAverage =>
      case InternationalAverage =>
      case RibbonAverage =>
    }
  }

  type Record = map<Column, Cell>

  /** A frame row as a record keyed by column: one cell per kept column,
      holding that column of the row. */
  function ToRecord(r: Row): (rec: Record)
    ensures rec.Keys == RecordColumns
    ensures rec[Country] == Text(r.csv.country) && rec[YearEnd] == Text(r.csv.yearend)
    ensures rec[Leader] == TextCell(r.csv.leader) && rec[Party] == TextCell(r.csv.party)
    ensures rec[Region] == TextCell(r.csv.region) && rec[WbRegion] == TextCell(r.csv.wbRegion)
    ensures rec[Term] == Number(r.csv.term as real) && rec[YearBegin] == Number(r.csv.yearbegin as real)
    ensures forall c :: ScoreOf(c) in rec && rec[ScoreOf(c)] == NumberCell(Score(r, c))
    ensures rec[YearEndNumericColumn] ==
      NumberCell(if r.yearendNumeric.Some? then Some(r.yearendNumeric.value as real) else None)
  {
    ScoreColumnsKept();
    map c | c in RecordColumns ::
      match c
      case Country => Text(r.csv.country)
      case Leader => TextCell(r.csv.leader)
      case Party => TextCell(r.csv.party)
      case Term => Number(r.csv.term as real)
      case YearBegin => Number(r.csv.yearbegin as real)
      case YearEnd => Text(r.csv.yearend)
      case Region => TextCell(r.csv.region)
      case WbRegion => TextCell(r.csv.wbRegion)
      case ScoreOf(sc) => NumberCell(Score(r, sc))
      case YearEndNumericColumn =>
        NumberCell(if r.yearendNumeric.Some? then Some(r.yearendNumeric.value as real) else None)
  }

  /** A record with every NaN replaced by `None`. */
  function Cleaned(rec: Record): (r: Record)
    ensures r.Keys == rec.Keys
    ensures forall k :: k in r ==> r[k] != NaN
    ensures forall k :: k in r && rec[k] != NaN ==> r[k] == rec[k]
    ensures forall k :: k in rec && rec[k] == NaN ==> r[k] == Null
  {
    map k | k in rec :: if rec[k] == NaN then Null else rec[k]
  }

  lemma CleanedIdempotent(rec: Record)
    ensures Cleaned(Cleaned(rec)) == Cleaned(rec)
  {
  }

  /** The inner loop: overwrite each NaN value of one record, key by key. */
  method CleanRecord(rec: Record) returns (r: Record)
    ensures r == Cleaned(rec)
  {
    r := rec;
    var todo := rec.Keys;
    while todo != {}
      invariant todo <= rec.Keys && r.Keys == rec.Keys
      invariant forall k :: k in rec && k !in todo ==> r[k] == Cleaned(rec)[k]
      invariant forall k :: k in todo ==> r[k] == rec[k]
      decreases todo
    {
      var k :| k in todo;
      if r[k] == NaN {
        r := r[k := Null];
      }
      todo := todo - {k};
    }
  }

  /** The outer loop over the record list, updating each record in place. */
  method CleanRecords(records: array<Record>)
    modifies records
    ensures forall i :: 0 <= i < records.Length ==> records[i] == Cleaned(old(records[i]))
  {
    for i := 0 to records.Length
      invariant forall j :: 0 <= j < i ==> records[j] == Cleaned(old(records[j]))
      invariant forall j :: i <= j < records.Length ==> records[j] == old(records[j])
    {
      records[i] := CleanRecord(records[i]);
    }
  }

  datatype DataResponse = DataResponse(data: seq<Record>, count: int)

  /** The rows `get_data` answers with, before they become records. */
  function DataRows(rows: seq<Row>, country: Option<string>, leader: Option<string>,
                    yearStart: Option<int>, yearEnd: Option<int>, minPopulism: Option<real>): seq<Row>
  {
    MinPopulismFilter(YearFilter(LeaderFilter(CountryFilter(rows, country), leader), yearStart, yearEnd), minPopulism)
  }

  /** `get_data`: the filtered rows as NaN-free records, with their count. */
  method GetData(df: Option<seq<Row>>, country: Option<string>, leader: Option<string>,
                 yearStart: Option<int>, yearEnd: Option<int>, minPopulism: Option<real>)
    returns (resp: Result<DataResponse, HttpError>)
    ensures df.None? <==> resp == Failure(NotLoaded)
    ensures df.Some? ==> resp.Success?
    ensures resp.Success? ==>
      var kept := DataRows(df.value, country, leader, yearStart, yearEnd, minPopulism);
      resp.value.count == |resp.value.data| == |kept| &&
      forall i :: 0 <= i < |kept| ==> resp.value.data[i] == Cleaned(ToRecord(kept[i]))
  {
    if df.None? {
      return Failure(NotLoaded);
    }
    var kept := DataRows(df.value, country, leader, yearStart, yearEnd, minPopulism);
    var records := new Record[|kept|](i requires 0 <= i < |kept| => ToRecord(kept[i]));
    CleanRecords(records);
    resp := Success(DataResponse(records[..], records.Length));
  }

  /** No record that `get_data` returns holds a NaN: each record has its
      row's columns, a NaN cell of the row is `None` and every other cell is
      the row's value. */
  lemma {:induction false} DataHasNoNaN(resp: DataResponse, kept: seq<Row>)
    requires |resp.data| == |kept|
    requires forall i :: 0 <= i < |kept| ==> resp.data[i] == Cleaned(ToRecord(kept[i]))
    ensures forall i, k :: 0 <= i < |resp.data| && k in resp.data[i] ==> resp.data[i][k] != NaN
    ensures forall i :: 0 <= i < |resp.data| ==> resp.data[i].Keys == RecordColumns
    ensures forall i, k :: 0 <= i < |resp.data| && k in ToRecord(kept[i]) ==>
      resp.data[i][k] == (if ToRecord(kept[i])[k] == NaN then Null else ToRecord(kept[i])[k])
  {
    forall i | 0 <= i < |resp.data|
      ensures resp.data[i].Keys == RecordColumns
      ensures forall k :: k in resp.data[i] ==> resp.data[i][k] != NaN
      ensures forall k :: k in ToRecord(kept[i]) ==>
        resp.data[i][k] == (if ToRecord(kept[i])[k] == NaN then Null else ToRecord(kept[i])[k])
    {
      assert resp.data[i] == Cleaned(ToRecord(kept[i]));
    }
  }

  // ---------------------------------------------------------------------
  // get_map_data
  // ---------------------------------------------------------------------

  datatype ScoreColumn = TotalAverage | CampaignAverage | FamousAverage | InternationalAverage | RibbonAverage

  const ScoreColumnMap: map<string, ScoreColumn> := map[
    "total" := TotalAverage,
    "campaign" := CampaignAverage,
    "famous" := FamousAverage,
    "international" := InternationalAverage,
    "ribbon" := RibbonAverage]

  /** `score_column_map.get(speech_type, "totalaverage")`. */
  function ScoreColumnFor(speechType: Option<string>): (c: ScoreColumn)
    ensures speechType.Some? && speechType.value in ScoreColumnMap ==> c == ScoreColumnMap[speechType.value]
    ensures !(speechType.Some? && speechType.value in ScoreColumnMap) ==> c == TotalAverage
  {
    if speechType.Some? && speechType.value in ScoreColumnMap then ScoreColumnMap[speechType.value] else TotalAverage
  }

  /** The five speech types select five different columns. */
  lemma ScoreColumnsDistinct(a: string, b: string)
    requires a in ScoreColumnMap && b in ScoreColumnMap && a != b
    ensures ScoreColumnFor(Some(a)) != ScoreColumnFor(Some(b))
  {
  }

  function Score(r: Row, c: ScoreColumn): Option<real> {
    match c
    case TotalAverage => r.csv.totalaverage
    case CampaignAverage => r.csv.campaignAverage
    case FamousAverage => r.csv.famousAverage
    case InternationalAverage => r.csv.internationalAverage
    case RibbonAverage => r.csv.ribbonAverage
  }

  function Scored(c: ScoreColumn): Row -> bool {
    (x: Row) => Score(x, c).Some?
  }

  /** The non-NaN values of a column, in row order (what `mean` averages):
      one value per row whose cell is not NaN, so repeated values keep their
      multiplicity. */
  function PresentScores(rows: seq<Row>, c: ScoreColumn): (xs: seq<real>)
    ensures |xs| <= |rows|
    ensures forall v :: v in xs <==> exists r :: r in rows && Score(r, c) == Some(v)
    ensures |xs| == |Filter(rows, Scored(c))|
    ensures forall i :: 0 <= i < |xs| ==> Some(xs[i]) == Score(Filter(rows, Scored(c))[i], c)
  {
    if rows == [] then []
    else
      assert rows == [rows[0]] + rows[1..];
      match Score(rows[0], c)
      case Some(v) => [v] + PresentScores(rows[1..], c)
      case None => PresentScores(rows[1..], c)
  }

  function Sum(xs: seq<real>): real {
    if xs == [] then 0.0 else xs[0] + Sum(xs[1..])
  }

  /** pandas' `mean`, which skips NaN: NaN itself for no values. Floating
      point rounding is not modelled. */
  function Mean(xs: seq<real>): Option<real> {
    if xs == [] then None else Some(Sum(xs) / (|xs| as real))
  }

  lemma {:induction false} SumBounds(xs: seq<real>, lo: real, hi: real)
    requires forall i :: 0 <= i < |xs| ==> lo <= xs[i] <= hi
    ensures (|xs| as real) * lo <= Sum(xs) <= (|xs| as real) * hi
  {
    if xs != [] {
      SumBounds(xs[1..], lo, hi);
    }
  }

  /** The mean of values in a range lies in that range. */
  lemma MeanBounds(xs: seq<real>, lo: real, hi: real)
    requires forall i :: 0 <= i < |xs| ==> lo <= xs[i] <= hi
    ensures Mean(xs).None? <==> xs == []
    ensures Mean(xs).Some? ==> lo <= Mean(xs).value <= hi
  {
    if xs != [] {
      SumBounds(xs, lo, hi);
      var n := |xs| as real;
      assert n * lo <= Sum(xs) <= n * hi;
      assert lo == (n * lo) / n && hi == (n * hi) / n;
    }
  }

  /** The `first` aggregation: the first non-NaN value of a string column. */
  function FirstPresent(rows: seq<Row>, column: Row -> Option<string>): (v: Option<string>)
    ensures v.None? <==> forall i :: 0 <= i < |rows| ==> column(rows[i]).None?
    ensures v.Some? ==> exists i :: 0 <= i < |rows| && column(rows[i]) == v &&
                                    forall j :: 0 <= j < i ==> column(rows[j]).None?
  {
    if rows == [] then None
    else if column(rows[0]).Some? then column(rows[0])
    else
      var v := FirstPresent(rows[1..], column);
      FirstPresentOfTail(rows, column, v);
      v
  }

  lemma FirstPresentOfTail(rows: seq<Row>, column: Row -> Option<string>, v: Option<string>)
    requires rows != [] && column(rows[0]).None?
    requires v.Some? ==> exists i :: 0 <= i < |rows[1..]| && column(rows[1..][i]) == v &&
                                     forall j :: 0 <= j < i ==> column(rows[1..][j]).None?
    ensures v.Some? ==> exists i :: 0 <= i < |rows| && column(rows[i]) == v &&
                                    forall j :: 0 <= j < i ==> column(rows[j]).None?
  {
    if v.Some? {
      var i :| 0 <= i < |rows[1..]| && column(rows[1..][i]) == v &&
               forall j :: 0 <= j < i ==> column(rows[1..][j]).None?;
      assert column(rows[i + 1]) == v;
      forall j | 0 <= j < i + 1 ensures column(rows[j]).None? {
        if j > 0 { assert rows[j] == rows[1..][j - 1]; }
      }
    }
  }

  /** The grouped row of one country before the defaults are applied. */
  datatype Group = Group(country: string, mean: Option<real>, region: Option<string>,
                         wbRegion: Option<string>, leaderCount: nat)

  function CountryIs(country: string): Row -> bool {
    (x: Row) => x.csv.country == country
  }

  predicate HasLeader(x: Row) {
    x.csv.leader.Some?
  }

  function RegionOf(x: Row): Option<string> {
    x.csv.region
  }

  function WbRegionOf(x: Row): Option<string> {
    x.csv.wbRegion
  }

  function RowsOf(rows: seq<Row>, country: string): (r: seq<Row>)
    ensures forall x :: x in r <==> x in rows && x.csv.country == country
    ensures IsSubsequence(r, rows)
    ensures forall x :: multiset(r)[x] == if x.csv.country == country then multiset(rows)[x] else 0
  {
    FilterIsSubsequence(rows, CountryIs(country));
    FilterCount(rows, CountryIs(country));
    Filter(rows, CountryIs(country))
  }

  function Countries(rows: seq<Row>): (cs: seq<string>)
    ensures |cs| == |rows|
    ensures forall c :: c in cs <==> exists r :: r in rows && r.csv.country == c
  {
    var cs := seq(|rows|, i requires 0 <= i < |rows| => rows[i].csv.country);
    assert forall c :: c in cs <==> exists r :: r in rows && r.csv.country == c by {
      forall c ensures c in cs <==> exists r :: r in rows && r.csv.country == c {
        if c in cs {
          var i :| 0 <= i < |cs| && cs[i] == c;
          assert rows[i] in rows;
        }
        if exists r :: r in rows && r.csv.country == c {
          var r :| r in rows && r.csv.country == c;
          var i :| 0 <= i < |rows| && rows[i] == r;
          assert cs[i] == c;
        }
      }
    }
    cs
  }

  /** The group keys: `groupby` sorts them and drops duplicates. */
  function GroupKeys(rows: seq<Row>): (keys: seq<string>)
    ensures SortedStrings(keys) && NoDuplicates(keys)
    ensures forall c :: c in keys <==> exists r :: r in rows && r.csv.country == c
  {
    SortStrings(Unique(Countries(rows)))
  }

  function GroupOf(rows: seq<Row>, column: ScoreColumn, country: string): Group {
    var own := RowsOf(rows, country);
    Group(country, Mean(PresentScores(own, column)),
          FirstPresent(own, RegionOf),
          FirstPresent(own, WbRegionOf),
          |Filter(own, HasLeader)|)
  }

  /** `groupby('country').agg({...}).reset_index()`. */
  function GroupBy(rows: seq<Row>, column: ScoreColumn): (groups: seq<Group>)
    ensures |groups| == |GroupKeys(rows)|
    ensures forall i :: 0 <= i < |groups| ==> groups[i] == GroupOf(rows, column, GroupKeys(rows)[i])
  {
    var keys := GroupKeys(rows);
    seq(|keys|, i requires 0 <= i < |keys| => GroupOf(rows, column, keys[i]))
  }

  /** One entry of the map data. */
  datatype MapEntry = MapEntry(country: string, avgPopulism: real, region: string, wbRegion: string, numTerms: int)

  /** The defaults of the loop body: 0 for a NaN mean, "Unknown" for a
      NaN region. */
  function ToMapEntry(g: Group): (e: MapEntry)
    ensures e.country == g.country && e.numTerms == g.leaderCount
    ensures e.avgPopulism == g.mean.GetOr(0.0)
    ensures e.region == g.region.GetOr("Unknown") && e.wbRegion == g.wbRegion.GetOr("Unknown")
  {
    MapEntry(g.country, if g.mean.Some? then g.mean.value else 0.0,
             if g.region.Some? then g.region.value else "Unknown",
             if g.wbRegion.Some? then g.wbRegion.value else "Unknown",
             g.leaderCount)
  }

  /** The loop that appends one entry per grouped row. */
  method BuildMapData(groups: seq<Group>) returns (mapData: seq<MapEntry>)
    ensures |mapData| == |groups|
    ensures forall i :: 0 <= i < |groups| ==> mapData[i] == ToMapEntry(groups[i])
  {
    mapData := [];
    for i := 0 to |groups|
      invariant |mapData| == i
      invariant forall j :: 0 <= j < i ==> mapData[j] == ToMapEntry(groups[j])
    {
      mapData := mapData + [ToMapEntry(groups[i])];
    }
  }

  datatype MapFilters = MapFilters(yearStart: Option<int>, yearEnd: Option<int>, speechType: Option<string>)
  datatype MapDataResponse = MapDataResponse(mapData: seq<MapEntry>, filters: MapFilters)

  /** The entries `get_map_data` answers with. */
  function MapEntries(rows: seq<Row>, yearStart: Option<int>, yearEnd: Option<int>, speechType: Option<string>): (es: seq<MapEntry>)
  {
    var groups := GroupBy(YearFilter(rows, yearStart, yearEnd), ScoreColumnFor(speechType));
    seq(|groups|, i requires 0 <= i < |groups| => ToMapEntry(groups[i]))
  }

  /** `get_map_data`; the speech type arrives as "total" when the query
      does not name one. */
  method GetMapData(df: Option<seq<Row>>, yearStart: Option<int>, yearEnd: Option<int>, speechType: Option<string>)
    returns (resp: Result<MapDataResponse, HttpError>)
    ensures df.None? <==> resp == Failure(NotLoaded)
    ensures df.Some? ==> resp == Success(MapDataResponse(MapEntries(df.value, yearStart, yearEnd, speechType),
                                                         MapFilters(yearStart, yearEnd, speechType)))
  {
    if df.None? {
      return Failure(NotLoaded);
    }
    var filtered := YearFilter(df.value, yearStart, yearEnd);
    var groups := GroupBy(filtered, ScoreColumnFor(speechType));
    var mapData := BuildMapData(groups);
    assert mapData == MapEntries(df.value, yearStart, yearEnd, speechType);
    resp := Success(MapDataResponse(mapData, MapFilters(yearStart, yearEnd, speechType)));
  }

  function EntryCountries(es: seq<MapEntry>): (cs: seq<string>)
    ensures |cs| == |es| && forall i :: 0 <= i < |es| ==> cs[i] == es[i].country
  {
    seq(|es|, i requires 0 <= i < |es| => es[i].country)
  }

  /** One entry per country, sorted by country: a country has an entry iff
      some row in the year range belongs to it. */
  lemma MapEntriesOnePerCountry(rows: seq<Row>, yearStart: Option<int>, yearEnd: Option<int>, speechType: Option<string>)
    ensures var cs := EntryCountries(MapEntries(rows, yearStart, yearEnd, speechType));
      SortedStrings(cs) && NoDuplicates(cs) &&
      forall c :: c in cs <==> exists r :: r in rows && InYearRange(r, yearStart, yearEnd) && r.csv.country == c
  {
    var filtered := YearFilter(rows, yearStart, yearEnd);
    var cs := EntryCountries(MapEntries(rows, yearStart, yearEnd, speechType));
    assert cs == GroupKeys(filtered);
  }

  /** The aggregates of one country's entry: `num_terms` counts its rows
      with a leader, the average is the mean of its non-NaN scores (0 when
      there are none) and lies between their bounds, and the region and
      the World Bank region are the first ones its rows name, or "Unknown"
      if none of them names one. */
  lemma {:induction false} MapEntryAggregates(rows: seq<Row>, yearStart: Option<int>, yearEnd: Option<int>,
                                              speechType: Option<string>, i: nat, lo: real, hi: real)
    requires i < |MapEntries(rows, yearStart, yearEnd, speechType)|
    requires forall r :: r in rows && Score(r, ScoreColumnFor(speechType)).Some? ==>
      lo <= Score(r, ScoreColumnFor(speechType)).value <= hi
    ensures var e := MapEntries(rows, yearStart, yearEnd, speechType)[i];
      var own := RowsOf(YearFilter(rows, yearStart, yearEnd), e.country);
      var xs := PresentScores(own, ScoreColumnFor(speechType));
      e.numTerms == |Filter(own, HasLeader)| &&
      (xs == [] ==> e.avgPopulism == 0.0) &&
      (xs != [] ==> lo <= e.avgPopulism <= hi) &&
      e.region == FirstPresent(own, RegionOf).GetOr("Unknown") &&
      e.wbRegion == FirstPresent(own, WbRegionOf).GetOr("Unknown") &&
      ((forall j :: 0 <= j < |own| ==> own[j].csv.region.None?) ==> e.region == "Unknown") &&
      ((forall j :: 0 <= j < |own| ==> own[j].csv.wbRegion.None?) ==> e.wbRegion == "Unknown")
  {
    var e := MapEntries(rows, yearStart, yearEnd, speechType)[i];
    var own := RowsOf(YearFilter(rows, yearStart, yearEnd), e.country);
    var column := ScoreColumnFor(speechType);
    var xs := PresentScores(own, column);
    forall k | 0 <= k < |xs| ensures lo <= xs[k] <= hi {
      assert xs[k] in xs;
      var r :| r in own && Score(r, column) == Some(xs[k]);
    }
    MeanBounds(xs, lo, hi);
  }

  // ---------------------------------------------------------------------
  // get_countries
  // ---------------------------------------------------------------------

  datatype CountriesResponse = CountriesResponse(countries: seq<string>, count: int)

  /** `sorted(df['country'].unique())` and its length. */
  function GetCountries(df: Option<seq<Row>>): (resp: Result<CountriesResponse, HttpError>)
    ensures df.None? <==> resp == Failure(NotLoaded)
    ensures resp.Success? ==>
      var cs := resp.value.countries;
      SortedStrings(cs) && NoDuplicates(cs) && resp.value.count == |cs| &&
      (forall c :: c in cs <==> exists r :: r in df.value && r.csv.country == c)
  {
    if df.None? then Failure(NotLoaded)
    else
      var unique := Unique(Countries(df.value));
      Success(CountriesResponse(SortStrings(unique), |unique|))
  }

  /** The count is the number of distinct countries in the frame. */
  lemma CountriesCountIsDistinct(rows: seq<Row>)
    ensures GetCountries(Some(rows)).value.count == |set r | r in rows :: r.csv.country|
  {
    var cs := GetCountries(Some(rows)).value.countries;
    DistinctLength(cs);
    assert (set x | x in cs) == (set r | r in rows :: r.csv.country);
  }

  // ---------------------------------------------------------------------
  // get_country_timeline
  // ---------------------------------------------------------------------

  function NotFound(country: string): HttpError {
    HttpError(404, "Country '" + country + "' not found")
  }

  function YearBeginKey(r: Row): real {
    r.csv.yearbegin as real
  }

  /** The country's rows in `sort_values('yearbegin')` order. pandas' default
      sort is not stable; this one is, which is one of the orders pandas may
      produce. */
  function TimelineRows(rows: seq<Row>, country: string): (r: seq<Row>)
    ensures multiset(r) == multiset(RowsOf(rows, country))
    ensures forall i, j :: 0 <= i < j < |r| ==> r[i].csv.yearbegin <= r[j].csv.yearbegin
  {
    var sorted := SortByKey(RowsOf(rows, country), YearBeginKey);
    assert SortedByKey(sorted, YearBeginKey);
    sorted
  }

  /** The loop body of the timeline endpoint. */
  function ToTimelineItem(r: Row): (t: TimelineItem)
    ensures t.yearStart == r.csv.yearbegin && t.term == r.csv.term
    ensures t.yearEnd == (if r.csv.yearend == "current" then YearNumber(CurrentYear) else YearText(r.csv.yearend))
    ensures t.totalPopulism == r.csv.totalaverage.GetOr(0.0)
    ensures t.campaign == r.csv.campaignAverage && t.ribbon == r.csv.ribbonAverage
    ensures t.famous == r.csv.famousAverage && t.international == r.csv.internationalAverage
    ensures t.leader == r.csv.leader && t.party == r.csv.party
  {
    TimelineItem(r.csv.leader, r.csv.party, r.csv.term, r.csv.yearbegin,
                 if r.csv.yearend != "current" then YearText(r.csv.yearend) else YearNumber(CurrentYear),
                 if r.csv.totalaverage.Some? then r.csv.totalaverage.value else 0.0,
                 r.csv.campaignAverage, r.csv.famousAverage, r.csv.internationalAverage, r.csv.ribbonAverage)
  }

  datatype TimelineResponse = TimelineResponse(country: string, timeline: seq<TimelineItem>, count: int)

  /** `get_country_timeline`: 404 when the country has no row, otherwise
      one item per row in year order, with the count. */
  method GetTimeline(df: Option<seq<Row>>, country: string) returns (resp: Result<TimelineResponse, HttpError>)
    ensures df.None? ==> resp == Failure(NotLoaded)
    ensures df.Some? && RowsOf(df.value, country) == [] ==> resp == Failure(NotFound(country))
    ensures df.Some? && RowsOf(df.value, country) != [] ==>
      var sorted := TimelineRows(df.value, country);
      resp.Success? && resp.value.country == country &&
      resp.value.count == |resp.value.timeline| == |sorted| &&
      forall i :: 0 <= i < |sorted| ==> resp.value.timeline[i] == ToTimelineItem(sorted[i])
  {
    if df.None? {
      return Failure(NotLoaded);
    }
    var own := RowsOf(df.value, country);
    if |own| == 0 {
      return Failure(NotFound(country));
    }
    var sorted := TimelineRows(df.value, country);
    var timeline: seq<TimelineItem> := [];
    for i := 0 to |sorted|
      invariant |timeline| == i
      invariant forall j :: 0 <= j < i ==> timeline[j] == ToTimelineItem(sorted[j])
    {
      timeline := timeline + [ToTimelineItem(sorted[i])];
    }
    resp := Success(TimelineResponse(country, timeline, |timeline|));
  }

  /** The timeline answers with exactly the country's rows, ordered by
      start year: every item comes from a row of that country, and the count
      is the number of such rows. */
  lemma {:induction false} TimelineFromCountryRows(rows: seq<Row>, country: string, items: seq<TimelineItem>)
    requires |items| == |TimelineRows(rows, country)|
    requires forall i :: 0 <= i < |items| ==> items[i] == ToTimelineItem(TimelineRows(rows, country)[i])
    ensures |items| == |RowsOf(rows, country)|
    ensures forall i, j :: 0 <= i < j < |items| ==> items[i].yearStart <= items[j].yearStart
    ensures forall i :: 0 <= i < |items| ==>
      exists r :: r in rows && r.csv.country == country && items[i] == ToTimelineItem(r)
  {
    var sorted := TimelineRows(rows, country);
    assert |sorted| == |multiset(sorted)| == |multiset(RowsOf(rows, country))| == |RowsOf(rows, country)|;
    forall i | 0 <= i < |items|
      ensures exists r :: r in rows && r.csv.country == country && items[i] == ToTimelineItem(r)
    {
      assert sorted[i] in multiset(sorted);
      assert sorted[i] in RowsOf(rows, country);
    }
  }
}
