/** The query-parameter builders of the frontend's API client
    (frontend-react/src/api/index.ts), and how their inputs and outputs meet
    the components and the backend. The `fetch` calls themselves are not
    modelled: a builder ends with the parameter list it would send. */
module Api {
  import opened Optional
  import opened Text
  import Types
  import opened Seqs
  import MapView
  import Speeches
  import Backend

  /** The query keys the client uses. */
  datatype Key = Country | Leader | YearStart | YearEnd | MinPopulism | SpeechType | TimeWeighted | Ideology

  /** The key as it is written into the URL. */
  function Name(k: Key): (s: string)
    ensures |s| > 0
  {
    match k
    case Country => "country"
    case Leader => "leader"
    case YearStart => "year_start"
    case YearEnd => "year_end"
    case MinPopulism => "min_populism"
    case SpeechType => "speech_type"
    case TimeWeighted => "time_weighted"
    case Ideology => "ideology"
  }

  /** Different keys are written differently, so a list of keys is also a
      list of names. */
  lemma NameInjective(a: Key, b: Key)
    ensures Name(a) == Name(b) ==> a == b
  {
  }

  /** A query value before it is written into the URL; number formatting
      (`toString`) is not modelled. */
  datatype QueryValue = Str(s: string) | Int(n: int) | Num(x: real)

  datatype Param = Param(key: Key, value: QueryValue)

  function Keys(ps: seq<Param>): (ks: seq<Key>)
    ensures |ks| == |ps| && forall i :: 0 <= i < |ps| ==> ks[i] == ps[i].key
  {
    seq(|ps|, i requires 0 <= i < |ps| => ps[i].key)
  }

  predicate HasKey(ps: seq<Param>, k: Key) {
    exists x :: x in ps && x.key == k
  }

  /** No two different entries share a key. */
  predicate OneValuePerKey(ps: seq<Param>) {
    forall x, y :: x in ps && y in ps && x.key == y.key ==> x == y
  }

  function RemoveKey(ps: seq<Param>, k: Key): (r: seq<Param>)
    ensures forall x :: x in r <==> x in ps && x.key != k
  {
    if ps == [] then []
    else if ps[0].key == k then RemoveKey(ps[1..], k)
    else [ps[0]] + RemoveKey(ps[1..], k)
  }

  function ReplaceFirst(ps: seq<Param>, k: Key, v: QueryValue): (r: seq<Param>)
    requires HasKey(ps, k)
    ensures forall x :: x in r <==> x == Param(k, v) || (x in ps && x.key != k)
  {
    if ps[0].key == k then [Param(k, v)] + RemoveKey(ps[1..], k)
    else
      assert HasKey(ps[1..], k) by {
        var x :| x in ps && x.key == k;
        assert x != ps[0];
      }
      [ps[0]] + ReplaceFirst(ps[1..], k, v)
  }

  /** `URLSearchParams.set`: a new key is appended; an existing key keeps
      its first position, takes the new value and loses its other entries. */
  function SetParam(ps: seq<Param>, k: Key, v: QueryValue): seq<Param> {
    if HasKey(ps, k) then ReplaceFirst(ps, k, v) else ps + [Param(k, v)]
  }

  /** A new key goes last; afterwards the key has the new value only, every
      other entry is kept, and a list with one value per key keeps that form. */
  lemma SetParamContents(ps: seq<Param>, k: Key, v: QueryValue)
    ensures !HasKey(ps, k) ==> SetParam(ps, k, v) == ps + [Param(k, v)]
    ensures forall x :: x in SetParam(ps, k, v) <==> x == Param(k, v) || (x in ps && x.key != k)
    ensures OneValuePerKey(ps) ==> OneValuePerKey(SetParam(ps, k, v))
  {
  }

  /** Setting a key twice leaves only the second value. */
  lemma SetTwice(ps: seq<Param>, k: Key, v: QueryValue, w: QueryValue)
    ensures forall x :: x in SetParam(SetParam(ps, k, v), k, w) <==> x in SetParam(ps, k, w)
  {
    SetParamContents(ps, k, v);
    SetParamContents(SetParam(ps, k, v), k, w);
    SetParamContents(ps, k, w);
  }

  /** A builder's rule: the value it sends for a key, `None` when it leaves
      the key out. */
  type Rule = Key -> Option<QueryValue>

  function Sends(rule: Rule): Key -> bool {
    k => rule(k).Some?
  }

  /** After the `set` calls for the keys `done`, in that order: the list
      holds one value per key, its keys are the sent keys of `done` in call
      order, and its pairs are exactly those the rule gives for `done`. */
  ghost predicate Built(q: seq<Param>, rule: Rule, done: seq<Key>) {
    OneValuePerKey(q) &&
    Keys(q) == Filter(done, Sends(rule)) &&
    (forall x :: x in q ==> x.key in done && rule(x.key) == Some(x.value)) &&
    (forall k :: k in done && rule(k).Some? ==> Param(k, rule(k).value) in q)
  }

  lemma BuiltEmpty(rule: Rule)
    ensures Built([], rule, [])
  {
  }

  /** One conditional `set`: the key is set when the rule sends it. */
  function Next(q: seq<Param>, rule: Rule, k: Key): seq<Param> {
    if rule(k).Some? then SetParam(q, k, rule(k).value) else q
  }

  /** One conditional `set` of a key that was not handled before. */
  lemma BuiltStep(q: seq<Param>, rule: Rule, done: seq<Key>, k: Key)
    requires Built(q, rule, done) && k !in done
    ensures Built(Next(q, rule, k), rule, done + [k])
  {
    FilterAppend(done, k, Sends(rule));
    assert !HasKey(q, k) by {
      forall x | x in q ensures x.key != k {
        assert Param(x.key, x.value) in q;
      }
    }
    if rule(k).Some? {
      SetParamContents(q, k, rule(k).value);
      var r := SetParam(q, k, rule(k).value);
      assert Keys(r) == Keys(q) + [k];
    }
  }

  /** The conditional `set` calls for the first `n` keys, in order, from an
      empty list. */
  function SetFirst(rule: Rule, keys: seq<Key>, n: nat): seq<Param>
    requires n <= |keys|
  {
    if n == 0 then [] else Next(SetFirst(rule, keys, n - 1), rule, keys[n - 1])
  }

  lemma {:induction false} SetFirstBuilt(rule: Rule, keys: seq<Key>, n: nat)
    requires n <= |keys| && NoDuplicates(keys)
    ensures Built(SetFirst(rule, keys, n), rule, keys[..n])
  {
    if n == 0 {
      BuiltEmpty(rule);
    } else {
      SetFirstBuilt(rule, keys, n - 1);
      assert keys[n - 1] !in keys[..n - 1];
      BuiltStep(SetFirst(rule, keys, n - 1), rule, keys[..n - 1], keys[n - 1]);
      assert keys[..n - 1] + [keys[n - 1]] == keys[..n];
    }
  }

  /** A builder whose keys are distinct, and whose rule sends nothing
      outside them, ends with exactly the pairs its rule sends, one per key,
      in call order. */
  lemma SetAllExactly(rule: Rule, keys: seq<Key>)
    requires NoDuplicates(keys)
    requires forall k :: rule(k).Some? ==> k in keys
    ensures Built(SetFirst(rule, keys, |keys|), rule, keys)
    ensures forall k, v :: Param(k, v) in SetFirst(rule, keys, |keys|) <==> rule(k) == Some(v)
  {
    SetFirstBuilt(rule, keys, |keys|);
    assert keys[..|keys|] == keys;
    var q := SetFirst(rule, keys, |keys|);
    forall k, v | rule(k) == Some(v)
      ensures Param(k, v) in q
    {
      assert k in keys;
    }
  }

  /** The built list is determined by the rule: its i-th entry is the i-th
      sent key with the value the rule gives it. */
  lemma BuiltInOrder(q: seq<Param>, rule: Rule, done: seq<Key>)
    requires Built(q, rule, done)
    ensures var sent := Filter(done, Sends(rule));
      |q| == |sent| && forall i :: 0 <= i < |q| ==> rule(sent[i]).Some? && q[i] == Param(sent[i], rule(sent[i]).value)
  {
    forall i | 0 <= i < |q|
      ensures q[i] == Param(q[i].key, rule(q[i].key).value)
    {
      assert q[i] in q;
    }
  }

  /** JavaScript truthiness of an optional string, integer or number. */
  predicate GivenText(v: Option<string>) {
    v.Some? && Truthy(v.value)
  }

  predicate GivenInt(v: Option<int>) {
    v.Some? && v.value != 0
  }

  predicate GivenNum(v: Option<real>) {
    v.Some? && v.value != 0.0
  }

  // ---------------------------------------------------------------------
  // fetchData
  // ---------------------------------------------------------------------

  /** The optional fields of `fetchData`'s argument; an absent argument is
      the record with every field `None`. */
  datatype DataParams = DataParams(country: Option<string>, leader: Option<string>,
                                   yearStart: Option<int>, yearEnd: Option<int>, minPopulism: Option<real>)

  /** The keys `fetchData` sets, in the order of its calls. */
  const DataKeys: seq<Key> := [Country, Leader, YearStart, YearEnd, MinPopulism]

  /** The value `fetchData` sends for a key: every parameter only when it
      is truthy. */
  function DataValue(p: DataParams, k: Key): (v: Option<QueryValue>)
    ensures v.Some? ==> k in DataKeys
    ensures k == YearStart ==> (v.Some? <==> GivenInt(p.yearStart))
    ensures k == MinPopulism ==> (v.Some? <==> GivenNum(p.minPopulism))
  {
    match k
    case Country => if GivenText(p.country) then Some(Str(p.country.value)) else None
    case Leader => if GivenText(p.leader) then Some(Str(p.leader.value)) else None
    case YearStart => if GivenInt(p.yearStart) then Some(Int(p.yearStart.value)) else None
    case YearEnd => if GivenInt(p.yearEnd) then Some(Int(p.yearEnd.value)) else None
    case MinPopulism => if GivenNum(p.minPopulism) then Some(Num(p.minPopulism.value)) else None
    case _ => None
  }

  function DataRule(p: DataParams): Rule {
    k => DataValue(p, k)
  }

  /** The rule at each key of `DataKeys`, in call order. */
  lemma DataRuleAtKeys(p: DataParams)
    ensures DataRule(p)(DataKeys[0]) == if GivenText(p.country) then Some(Str(p.country.value)) else None
    ensures DataRule(p)(DataKeys[1]) == if GivenText(p.leader) then Some(Str(p.leader.value)) else None
    ensures DataRule(p)(DataKeys[2]) == if GivenInt(p.yearStart) then Some(Int(p.yearStart.value)) else None
    ensures DataRule(p)(DataKeys[3]) == if GivenInt(p.yearEnd) then Some(Int(p.yearEnd.value)) else None
    ensures DataRule(p)(DataKeys[4]) == if GivenNum(p.minPopulism) then Some(Num(p.minPopulism.value)) else None
  {
  }

  /** `fetchData`'s five conditional `set` calls build exactly the pairs its
      rule sends, one per key, in call order. */
  lemma DataSetCalls(p: DataParams, q: seq<Param>)
    requires q == SetFirst(DataRule(p), DataKeys, 5)
    ensures Built(q, DataRule(p), DataKeys)
    ensures forall k, v :: Param(k, v) in q <==> DataValue(p, k) == Some(v)
  {
    SetAllExactly(DataRule(p), DataKeys);
  }

  /** `fetchData`'s successive `searchParams.set` calls: the list holds
      exactly the pairs the rule above gives, one per key, in the order of
      the calls. */
  method DataQuery(p: DataParams) returns (q: seq<Param>)
    ensures Built(q, DataRule(p), DataKeys)
    ensures forall k, v :: Param(k, v) in q <==> DataValue(p, k) == Some(v)
  {
    ghost var rule := DataRule(p);
    DataRuleAtKeys(p);
    q := [];
    if p.country.Some? && Truthy(p.country.value) {
      q := SetParam(q, Country, Str(p.country.value));
    }
    assert q == SetFirst(rule, DataKeys, 1);
    if p.leader.Some? && Truthy(p.leader.value) {
      q := SetParam(q, Leader, Str(p.leader.value));
    }
    assert q == SetFirst(rule, DataKeys, 2);
    if p.yearStart.Some? && p.yearStart.value != 0 {
      q := SetParam(q, YearStart, Int(p.yearStart.value));
    }
    assert q == SetFirst(rule, DataKeys, 3);
    if p.yearEnd.Some? && p.yearEnd.value != 0 {
      q := SetParam(q, YearEnd, Int(p.yearEnd.value));
    }
    assert q == SetFirst(rule, DataKeys, 4);
    if p.minPopulism.Some? && p.minPopulism.value != 0.0 {
      q := SetParam(q, MinPopulism, Num(p.minPopulism.value));
    }
    assert q == SetFirst(rule, DataKeys, 5);
    DataSetCalls(p, q);
  }

  /** A start year or a minimum score of 0 is dropped from the query, and
      the backend then applies no such filter. */
  lemma DataQueryDropsZeros(p: DataParams, q: seq<Param>)
    requires p.yearStart == Some(0) && p.minPopulism == Some(0.0)
    requires Built(q, DataRule(p), DataKeys)
    ensures !HasKey(q, YearStart) && !HasKey(q, MinPopulism)
  {
    forall x | x in q
      ensures x.key != YearStart && x.key != MinPopulism
    {
      assert DataRule(p)(x.key) == Some(x.value);
    }
  }

  // ---------------------------------------------------------------------
  // fetchMapData
  // ---------------------------------------------------------------------

  /** A JavaScript value that may be missing, `null`, or present. */
  datatype Nullable<+T> = Undefined | Null | Present(value: T)

  datatype MapParams = MapParams(yearStart: Option<int>, yearEnd: Option<int>, speechType: Option<string>,
                                 timeWeighted: Option<bool>, ideology: Nullable<int>)

  const MapKeys: seq<Key> := [YearStart, YearEnd, SpeechType, TimeWeighted, Ideology]

  /** Years and speech type when truthy, `time_weighted=true` when the flag
      is true, and the ideology whenever it is neither missing nor null. */
  function MapValue(p: MapParams, k: Key): (v: Option<QueryValue>)
    ensures v.Some? ==> k in MapKeys
    ensures k == Ideology ==> (v.Some? <==> p.ideology.Present?)
    ensures k == TimeWeighted ==> (v.Some? <==> p.timeWeighted == Some(true))
  {
    match k
    case YearStart => if GivenInt(p.yearStart) then Some(Int(p.yearStart.value)) else None
    case YearEnd => if GivenInt(p.yearEnd) then Some(Int(p.yearEnd.value)) else None
    case SpeechType => if GivenText(p.speechType) then Some(Str(p.speechType.value)) else None
    case TimeWeighted => if p.timeWeighted == Some(true) then Some(Str("true")) else None
    case Ideology => if p.ideology.Present? then Some(Int(p.ideology.value)) else None
    case _ => None
  }

  function MapRule(p: MapParams): Rule {
    k => MapValue(p, k)
  }

  /** The rule at each key of `MapKeys`, in call order. */
  lemma MapRuleAtKeys(p: MapParams)
    ensures MapRule(p)(MapKeys[0]) == if GivenInt(p.yearStart) then Some(Int(p.yearStart.value)) else None
    ensures MapRule(p)(MapKeys[1]) == if GivenInt(p.yearEnd) then Some(Int(p.yearEnd.value)) else None
    ensures MapRule(p)(MapKeys[2]) == if GivenText(p.speechType) then Some(Str(p.speechType.value)) else None
    ensures MapRule(p)(MapKeys[3]) == if p.timeWeighted == Some(true) then Some(Str("true")) else None
    ensures MapRule(p)(MapKeys[4]) == if p.ideology.Present? then Some(Int(p.ideology.value)) else None
  {
  }

  /** `fetchMapData`'s five conditional `set` calls build exactly the pairs
      its rule sends, one per key, in call order. */
  lemma MapSetCalls(p: MapParams, q: seq<Param>)
    requires q == SetFirst(MapRule(p), MapKeys, 5)
    ensures Built(q, MapRule(p), MapKeys)
    ensures forall k, v :: Param(k, v) in q <==> MapValue(p, k) == Some(v)
  {
    SetAllExactly(MapRule(p), MapKeys);
  }

  /** `fetchMapData`'s `searchParams.set` calls. */
  method MapQuery(p: MapParams) returns (q: seq<Param>)
    ensures Built(q, MapRule(p), MapKeys)
    ensures forall k, v :: Param(k, v) in q <==> MapValue(p, k) == Some(v)
  {
    ghost var rule := MapRule(p);
    MapRuleAtKeys(p);
    q := [];
    if p.yearStart.Some? && p.yearStart.value != 0 {
      q := SetParam(q, YearStart, Int(p.yearStart.value));
    }
    assert q == SetFirst(rule, MapKeys, 1);
    if p.yearEnd.Some? && p.yearEnd.value != 0 {
      q := SetParam(q, YearEnd, Int(p.yearEnd.value));
    }
    assert q == SetFirst(rule, MapKeys, 2);
    if p.speechType.Some? && Truthy(p.speechType.value) {
      q := SetParam(q, SpeechType, Str(p.speechType.value));
    }
    assert q == SetFirst(rule, MapKeys, 3);
    if p.timeWeighted == Some(true) {
      q := SetParam(q, TimeWeighted, Str("true"));
    }
    assert q == SetFirst(rule, MapKeys, 4);
    if p.ideology != Undefined && p.ideology != Null {
      q := SetParam(q, Ideology, Int(p.ideology.value));
    }
    assert q == SetFirst(rule, MapKeys, 5);
    MapSetCalls(p, q);
  }

  /** The Center ideology, 0, is sent although it is falsy. */
  lemma MapQuerySendsCenter(p: MapParams, q: seq<Param>)
    requires p.ideology == Present(0)
    requires Built(q, MapRule(p), MapKeys)
    ensures Param(Ideology, Int(0)) in q
  {
    assert MapRule(p)(Ideology) == Some(Int(0));
  }

  /** The application's map query: the year range and speech type it holds,
      and the ideology filter, which is `null` when none is chosen. */
  function AppMapParams(yearStart: int, yearEnd: int, speechType: string, ideology: Option<Types.Ideology>): (p: MapParams)
    ensures p.ideology.Null? <==> ideology.None?
    ensures p.timeWeighted.None?
  {
    MapParams(Some(yearStart), Some(yearEnd), Some(speechType), None,
              if ideology.Some? then Present(ideology.value as int) else Null)
  }

  /** The application's map query sends its years when they are non-zero,
      its speech type when non-empty, never `time_weighted`, and the
      ideology exactly when one is chosen, Center included. */
  lemma AppMapQuery(yearStart: int, yearEnd: int, speechType: string, ideology: Option<Types.Ideology>,
                    q: seq<Param>)
    requires forall k, v :: Param(k, v) in q <==>
      MapValue(AppMapParams(yearStart, yearEnd, speechType, ideology), k) == Some(v)
    ensures Param(YearStart, Int(yearStart)) in q <==> yearStart != 0
    ensures Param(YearEnd, Int(yearEnd)) in q <==> yearEnd != 0
    ensures Param(SpeechType, Str(speechType)) in q <==> speechType != ""
    ensures !HasKey(q, TimeWeighted)
    ensures ideology.Some? ==> Param(Ideology, Int(ideology.value as int)) in q
    ensures ideology.None? ==> !HasKey(q, Ideology)
  {
  }

  /** At start-up: 1990 to 2026, all speech types, no ideology. */
  lemma AppInitialMapQuery(q: seq<Param>)
    requires forall k, v :: Param(k, v) in q <==> MapValue(AppMapParams(1990, 2026, "total", None), k) == Some(v)
    ensures Param(YearStart, Int(1990)) in q && Param(YearEnd, Int(2026)) in q
    ensures Param(SpeechType, Str("total")) in q
    ensures !HasKey(q, TimeWeighted) && !HasKey(q, Ideology)
  {
    AppMapQuery(1990, 2026, "total", None, q);
  }

  /** `data.map_data`: the array inside the response body. The backend's
      entries carry no ideology field, so it arrives missing. */
  function ReceiveMapData(body: Backend.MapDataResponse): (items: seq<Types.MapDataItem>)
    ensures |items| == |body.mapData|
    ensures forall i :: 0 <= i < |items| ==>
      var e := body.mapData[i];
      items[i] == Types.MapDataItem(e.country, e.avgPopulism, e.region, e.wbRegion, None, e.numTerms)
  {
    seq(|body.mapData|, i requires 0 <= i < |body.mapData| =>
      var e := body.mapData[i];
      Types.MapDataItem(e.country, e.avgPopulism, e.region, e.wbRegion, None, e.numTerms))
  }

  /** Against this backend, choosing an ideology filter while colouring by
      ideology dims every country that has data: no received record carries
      an ideology, so none matches the filter. Without a filter every such
      country is painted with the gray of an unknown ideology. */
  lemma IdeologyModeAgainstThisBackend(body: Backend.MapDataResponse, name: string,
                                       selected: Option<string>, filter: Types.Ideology)
    ensures forall d :: d in ReceiveMapData(body) ==>
      MapView.FeatureStyle(name, Some(d), selected, Some(filter), true).fillOpacity == 0.3 &&
      MapView.FeatureStyle(name, Some(d), selected, Some(filter), true).fillColor == MapView.NoDataGray
    ensures forall d :: d in ReceiveMapData(body) ==>
      MapView.FeatureStyle(name, Some(d), selected, None, true).fillColor.Hsl? &&
      MapView.FeatureStyle(name, Some(d), selected, None, true).fillColor.saturation == 0
  {
    forall d | d in ReceiveMapData(body)
      ensures d.ideology.None?
    {
      var items := ReceiveMapData(body);
      var i :| 0 <= i < |items| && items[i] == d;
    }
  }

  // ---------------------------------------------------------------------
  // fetchSpeeches
  // ---------------------------------------------------------------------

  datatype SpeechesParams = SpeechesParams(country: Option<string>, ideology: Option<int>, speechType: Option<string>)

  const SpeechesKeys: seq<Key> := [Country, Ideology, SpeechType]

  /** Country when truthy, ideology whenever it is not missing, and the
      speech type when truthy and not "total". */
  function SpeechesValue(p: SpeechesParams, k: Key): (v: Option<QueryValue>)
    ensures v.Some? ==> k in SpeechesKeys
    ensures k == Ideology ==> (v.Some? <==> p.ideology.Some?)
    ensures k == SpeechType && v.Some? ==> p.speechType != Some("total")
  {
    match k
    case Country => if GivenText(p.country) then Some(Str(p.country.value)) else None
    case Ideology => if p.ideology.Some? then Some(Int(p.ideology.value)) else None
    case SpeechType =>
      if GivenText(p.speechType) && p.speechType.value != "total" then Some(Str(p.speechType.value)) else None
    case _ => None
  }

  function SpeechesRule(p: SpeechesParams): Rule {
    k => SpeechesValue(p, k)
  }

  /** The rule at each key of `SpeechesKeys`, in call order. */
  lemma SpeechesRuleAtKeys(p: SpeechesParams)
    ensures SpeechesRule(p)(SpeechesKeys[0]) == if GivenText(p.country) then Some(Str(p.country.value)) else None
    ensures SpeechesRule(p)(SpeechesKeys[1]) == if p.ideology.Some? then Some(Int(p.ideology.value)) else None
    ensures SpeechesRule(p)(SpeechesKeys[2]) == if GivenText(p.speechType) && p.speechType.value != "total" then Some(Str(p.speechType.value)) else None
  {
  }

  /** `fetchSpeeches`'s three conditional `set` calls build exactly the
      pairs its rule sends, one per key, in call order. */
  lemma SpeechesSetCalls(p: SpeechesParams, q: seq<Param>)
    requires q == SetFirst(SpeechesRule(p), SpeechesKeys, 3)
    ensures Built(q, SpeechesRule(p), SpeechesKeys)
    ensures forall k, v :: Param(k, v) in q <==> SpeechesValue(p, k) == Some(v)
  {
    SetAllExactly(SpeechesRule(p), SpeechesKeys);
  }

  /** `fetchSpeeches`'s `searchParams.set` calls. */
  method SpeechesQuery(p: SpeechesParams) returns (q: seq<Param>)
    ensures Built(q, SpeechesRule(p), SpeechesKeys)
    ensures forall k, v :: Param(k, v) in q <==> SpeechesValue(p, k) == Some(v)
  {
    ghost var rule := SpeechesRule(p);
    SpeechesRuleAtKeys(p);
    q := [];
    if p.country.Some? && Truthy(p.country.value) {
      q := SetParam(q, Country, Str(p.country.value));
    }
    assert q == SetFirst(rule, SpeechesKeys, 1);
    if p.ideology.Some? {
      q := SetParam(q, Ideology, Int(p.ideology.value));
    }
    assert q == SetFirst(rule, SpeechesKeys, 2);
    if p.speechType.Some? && Truthy(p.speechType.value) && p.speechType.value != "total" {
      q := SetParam(q, SpeechType, Str(p.speechType.value));
    }
    assert q == SetFirst(rule, SpeechesKeys, 3);
    SpeechesSetCalls(p, q);
  }

  /** The arguments the speech explorer passes: the country only when one
      is chosen, the ideology with `null` turned into a missing value, and
      the speech type as it is. */
  function ExplorerParams(country: string, ideology: Option<Types.Ideology>, speechType: string): (p: SpeechesParams)
    ensures p.ideology.Some? <==> ideology.Some?
    ensures p.country.Some? <==> Truthy(country)
  {
    SpeechesParams(if Truthy(country) then Some(country) else None,
                   if ideology.Some? then Some(ideology.value as int) else None,
                   Some(speechType))
  }

  /** The explorer's query is empty exactly when the filters are at their
      defaults, or when the speech type is the empty string and no other
      filter is set; the Center ideology, 0, is still sent. */
  lemma ExplorerQueryMatchesFilters(country: string, ideology: Option<Types.Ideology>, speechType: string,
                                    q: seq<Param>)
    requires Built(q, SpeechesRule(ExplorerParams(country, ideology, speechType)), SpeechesKeys)
    ensures q == [] <==>
      !Speeches.ClearFiltersVisible(country, ideology, speechType) || (speechType == "" && !Truthy(country) && ideology.None?)
    ensures ideology == Some(0) ==> Param(Ideology, Int(0)) in q
  {
    var rule := SpeechesRule(ExplorerParams(country, ideology, speechType));
    if q != [] {
      assert rule(q[0].key) == Some(q[0].value);
    }
    if Truthy(country) {
      assert rule(Country) == Some(Str(country));
    }
    if ideology.Some? {
      assert rule(Ideology) == Some(Int(ideology.value as int));
    }
    if Truthy(speechType) && speechType != "total" {
      assert rule(SpeechType) == Some(Str(speechType));
    }
  }

  // ---------------------------------------------------------------------
  // analyzeSpeech
  // ---------------------------------------------------------------------

  /** The analysis URL. The API base and `encodeURIComponent` are
      parameters; the model id is appended only when it is truthy. */
  method AnalyzeUrl(apiBase: string, filename: string, modelId: Option<string>, encode: string -> string)
    returns (url: string)
    ensures var path := apiBase + "/speeches/" + encode(filename) + "/analyze";
      url == (if GivenText(modelId) then path + "?model_id=" + encode(modelId.value) else path)
  {
    url := apiBase + "/speeches/" + encode(filename) + "/analyze";
    if modelId.Some? && Truthy(modelId.value) {
      url := url + "?model_id=" + encode(modelId.value);
    }
  }
}
