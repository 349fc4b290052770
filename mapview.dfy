/** The map's join-and-style engine (frontend-react/src/components/MapView.tsx):
    country-name resolution between the boundary dataset and the map data,
    the two colour encodings, the dimming and selection policy of `style`,
    and what `onEachFeature` binds to each feature (tooltip, click, hover). */
module MapView {
  import opened Optional
  import opened Text
  import opened Types
  import opened Scales

  /** A colour as a value rather than a CSS string. */
  datatype Color = Hex(code: string) | Hsl(hue: int, saturation: int, lightness: real)

  /** gray-200, the "no data" and "dimmed" fill. */
  const NoDataGray: Color := Hex("#e5e7eb")

  /** Static aliases from boundary-dataset spellings to map-data keys. */
  const CountryNameMap: map<string, string> := map[
    "United States of America" := "United States",
    "United Kingdom" := "UK",
    "Czech Republic" := "Czechia",
    "Russian Federation" := "Russia",
    "Korea, Republic of" := "South Korea",
    "Republic of Korea" := "South Korea"]

  // ---------------------------------------------------------------------
  // Colour encodings
  // ---------------------------------------------------------------------

  function Min(a: real, b: real): real {
    if a <= b then a else b
  }

  /** 70% for no populism, 25% from a score of 2 on; only the upper end is clamped. */
  function Lightness(populism: real): real {
    70.0 - Min(populism / 2.0, 1.0) * 45.0
  }

  /** `getIdeologyColor`: a fixed hue per ideology, shade by populism. */
  function IdeologyColor(ideology: Option<int>, populism: real): (c: Color)
    ensures ideology == Some(-1) ==> c == Hsl(220, 70, Lightness(populism))
    ensures ideology == Some(0) ==> c == Hsl(160, 70, Lightness(populism))
    ensures ideology == Some(1) ==> c == Hsl(0, 70, Lightness(populism))
    ensures ideology !in {Some(-1), Some(0), Some(1)} ==> c == Hsl(0, 0, Lightness(populism) + 20.0)
  {
    var lightness := Lightness(populism);
    if ideology == Some(-1) then Hsl(220, 70, lightness)
    else if ideology == Some(0) then Hsl(160, 70, lightness)
    else if ideology == Some(1) then Hsl(0, 70, lightness)
    else Hsl(0, 0, lightness + 20.0)
  }

  /** The shade scale: darker with more populism, 70 at 0, 25 from 2 on,
      within [25, 70] on the score range [0, 2]. */
  lemma LightnessScale(p: real, q: real)
    ensures p <= q ==> Lightness(q) <= Lightness(p)
    ensures Lightness(0.0) == 70.0 && Lightness(2.0) == 25.0
    ensures 0.0 <= p <= 2.0 ==> 25.0 <= Lightness(p) <= 70.0
    ensures 2.0 <= p ==> Lightness(p) == 25.0
  {
  }

  /** Negative scores are not clamped: they come out lighter than 70%. */
  lemma LightnessNotClampedBelow()
    ensures Lightness(-2.0) == 115.0
  {
  }

  /** The intensity-only palette, indexed by bucket. */
  const PopulismPalette: seq<string> := ["#86efac", "#facc15", "#f97316", "#dc2626", "#991b1b"]

  /** `getPopulismColor`: five closed-below buckets, gray for a missing score. */
  function PopulismColor(score: Option<real>): (c: Color)
    ensures score.None? ==> c == NoDataGray
    ensures score.Some? ==> c == Hex(PopulismPalette[Bucket(score.value)])
  {
    if score.None? then NoDataGray
    else if score.value >= 1.5 then Hex("#991b1b")
    else if score.value >= 1.0 then Hex("#dc2626")
    else if score.value >= 0.5 then Hex("#f97316")
    else if score.value >= 0.2 then Hex("#facc15")
    else Hex("#86efac")
  }

  /** The boundaries of the intensity scale: each threshold opens the
      darker bucket, anything just below it stays in the lighter one. */
  lemma PopulismColorBoundaries(s: real)
    ensures PopulismColor(Some(1.5)) == Hex("#991b1b")
    ensures 1.0 <= s < 1.5 ==> PopulismColor(Some(s)) == Hex("#dc2626")
    ensures 0.5 <= s < 1.0 ==> PopulismColor(Some(s)) == Hex("#f97316")
    ensures 0.2 <= s < 0.5 ==> PopulismColor(Some(s)) == Hex("#facc15")
    ensures s < 0.2 ==> PopulismColor(Some(s)) == Hex("#86efac")
  {
  }

  // ---------------------------------------------------------------------
  // Country name resolution
  // ---------------------------------------------------------------------

  /** The two keys under which the lookup stores an item. */
  predicate Names(item: MapDataItem, key: string) {
    key == item.country || key == ToLower(item.country)
  }

  /** The lookup after the `forEach` over `items`, each item stored under its
      country and then under its lower-cased country; a later `set`
      overwrites an earlier one. */
  function Lookup(items: seq<MapDataItem>): map<string, MapDataItem>
  {
    if items == [] then map[]
    else
      var last := items[|items| - 1];
      Lookup(items[..|items| - 1])[last.country := last][ToLower(last.country) := last]
  }

  /** The keys of the lookup are exactly the names of the items, and each key
      holds the LAST item that it names. */
  lemma {:induction false} LookupContents(items: seq<MapDataItem>, key: string)
    ensures key in Lookup(items) <==> exists i :: 0 <= i < |items| && Names(items[i], key)
    ensures key in Lookup(items) ==>
      exists i :: 0 <= i < |items| && Lookup(items)[key] == items[i] && Names(items[i], key) &&
        forall j :: i < j < |items| ==> !Names(items[j], key)
  {
    if items != [] {
      var front := items[..|items| - 1];
      var last := items[|items| - 1];
      LookupContents(front, key);
      assert forall i :: 0 <= i < |front| ==> front[i] == items[i];
      if !Names(last, key) {
        assert key != last.country && key != ToLower(last.country);
        assert key in Lookup(items) <==> key in Lookup(front);
        if key in Lookup(items) {
          assert Lookup(items)[key] == Lookup(front)[key];
          var i :| 0 <= i < |front| && Lookup(front)[key] == front[i] && Names(front[i], key) &&
            forall j :: i < j < |front| ==> !Names(front[j], key);
          assert forall j :: i < j < |items| ==> !Names(items[j], key) by {
            forall j | i < j < |items| ensures !Names(items[j], key) {
              if j < |front| {
                assert front[j] == items[j];
              }
            }
          }
          assert Lookup(items)[key] == items[i];
        }
      } else {
        assert Lookup(items)[key] == last;
        assert Names(items[|items| - 1], key);
      }
    }
  }

  /** `dataLookup`, built as the source builds it. */
  method BuildLookup(items: seq<MapDataItem>) returns (lookup: map<string, MapDataItem>)
    ensures lookup == Lookup(items)
  {
    lookup := map[];
    var n := 0;
    while n < |items|
      invariant 0 <= n <= |items|
      invariant lookup == Lookup(items[..n])
    {
      var item := items[n];
      lookup := lookup[item.country := item];
      lookup := lookup[ToLower(item.country) := item];
      assert items[..n + 1][..n] == items[..n];
      n := n + 1;
    }
    assert items[..n] == items;
  }

  /** `getCountryData` as a function: exact key, then lower-cased key, then
      the alias target looked up exactly; otherwise no data. */
  function Resolve(lookup: map<string, MapDataItem>, name: string): Option<MapDataItem>
  {
    if name in lookup then Some(lookup[name])
    else if ToLower(name) in lookup then Some(lookup[ToLower(name)])
    else if name in CountryNameMap && Truthy(CountryNameMap[name]) && CountryNameMap[name] in lookup then
      Some(lookup[CountryNameMap[name]])
    else None
  }

  /** `getCountryData`, step by step on `let result`. */
  method GetCountryData(lookup: map<string, MapDataItem>, name: string) returns (result: Option<MapDataItem>)
    ensures result == Resolve(lookup, name)
    ensures result.Some? ==> result.value in lookup.Values
  {
    result := if name in lookup then Some(lookup[name]) else None;
    if result.Some? {
      return;
    }
    var lower := ToLower(name);
    result := if lower in lookup then Some(lookup[lower]) else None;
    if result.Some? {
      return;
    }
    if name in CountryNameMap {
      var mappedName := CountryNameMap[name];
      if Truthy(mappedName) {
        result := if mappedName in lookup then Some(lookup[mappedName]) else None;
        if result.Some? {
          return;
        }
      }
    }
    result := None;
  }

  /** Whatever resolution returns is one of the items: a feature resolves to
      at most one record, and never to one that is not in the data. */
  lemma ResolvedFromData(items: seq<MapDataItem>, name: string)
    ensures Resolve(Lookup(items), name).Some? ==> Resolve(Lookup(items), name).value in items
  {
    var lookup := Lookup(items);
    var key := if name in lookup then name
      else if ToLower(name) in lookup then ToLower(name)
      else if name in CountryNameMap then CountryNameMap[name] else name;
    LookupContents(items, key);
  }

  /** Exact match: the item that the name names exactly (or as lower case),
      and that no later item also names, is the result. */
  lemma ExactMatchWins(items: seq<MapDataItem>, name: string, i: nat)
    requires i < |items| && Names(items[i], name)
    requires forall j :: i < j < |items| ==> !Names(items[j], name)
    ensures Resolve(Lookup(items), name) == Some(items[i])
  {
    LookupContents(items, name);
    var k :| 0 <= k < |items| && Lookup(items)[name] == items[k] && Names(items[k], name) &&
      forall j :: k < j < |items| ==> !Names(items[j], name);
    assert k == i;
  }

  /** A later item's lower-case key overwrites an earlier item's exact key:
      the name "uk" then resolves to "UK" although "uk" is itself a key. */
  lemma LaterLowerCaseKeyShadowsExactKey(a: MapDataItem, b: MapDataItem)
    requires a.country == "uk" && b.country == "UK"
    ensures Resolve(Lookup([a, b]), "uk") == Some(b)
  {
    assert ToLower("UK") == "uk";
    assert [a, b][..1] == [a];
    assert [a][..0] == [];
  }

  /** Case-insensitive fallback: a name that no item names exactly still
      resolves when some item's lower-cased country equals its lower case. */
  lemma LowerCaseFallback(items: seq<MapDataItem>, name: string, i: nat)
    requires forall j :: 0 <= j < |items| ==> !Names(items[j], name)
    requires i < |items| && ToLower(items[i].country) == ToLower(name)
    ensures Resolve(Lookup(items), name).Some?
    ensures Names(Resolve(Lookup(items), name).value, ToLower(name))
  {
    LookupContents(items, name);
    LookupContents(items, ToLower(name));
    assert Names(items[i], ToLower(name));
  }

  /** Every alias target is a non-empty name. */
  lemma AliasTargetsTruthy(name: string)
    requires name in CountryNameMap
    ensures Truthy(CountryNameMap[name])
  {
  }

  /** The alias fallback: reached only when neither spelling of the name is a
      key, it fires only for keys of the alias table and then looks the target
      up exactly. */
  lemma AliasFallback(items: seq<MapDataItem>, name: string)
    requires forall j :: 0 <= j < |items| ==> !Names(items[j], name) && !Names(items[j], ToLower(name))
    ensures name !in CountryNameMap ==> Resolve(Lookup(items), name) == None
    ensures name in CountryNameMap ==>
      (Resolve(Lookup(items), name).Some? <==> exists j :: 0 <= j < |items| && Names(items[j], CountryNameMap[name]))
  {
    LookupContents(items, name);
    LookupContents(items, ToLower(name));
    if name in CountryNameMap {
      var target := CountryNameMap[name];
      AliasTargetsTruthy(name);
      LookupContents(items, target);
    }
  }

  /** The alias target gets no lower-case retry: with only "united states"
      in the data, "United States of America" finds nothing. */
  lemma AliasHasNoLowerCaseRetry(a: MapDataItem)
    requires a.country == "united states"
    ensures Resolve(Lookup([a]), "United States of America") == None
  {
    assert [a][..0] == [];
    assert ToLower("united states") == "united states";
    assert ToLower("United States of America") == "united states of america";
  }

  /** The boundary name "United States of America" reaches the map-data
      record "United States" through the alias table. */
  lemma AliasScenario(a: MapDataItem)
    requires a.country == "United States"
    ensures Resolve(Lookup([a]), "United States of America") == Some(a)
  {
    assert [a][..0] == [];
    assert ToLower("United States") == "united states";
    assert ToLower("United States of America") == "united states of america";
  }

  // ---------------------------------------------------------------------
  // Style: fill, dimming and selection stroke
  // ---------------------------------------------------------------------

  /** A GeoJSON feature's properties that name it. */
  datatype GeoFeature = GeoFeature(admin: Option<string>, name: Option<string>)

  /** `ADMIN || name || ''`. */
  function FeatureName(f: GeoFeature): string {
    if f.admin.Some? && Truthy(f.admin.value) then f.admin.value
    else if f.name.Some? && Truthy(f.name.value) then f.name.value
    else ""
  }

  /** The Leaflet path options that `style` returns. */
  datatype PathOptions = PathOptions(fillColor: Color, weight: int, opacity: real, color: Color, fillOpacity: real)

  /** Selection as `style` tests it: the raw boundary name, or its alias,
      equals the selected country (no data lookup involved). */
  predicate IsSelected(countryName: string, selected: Option<string>) {
    Some(countryName) == selected ||
    (countryName in CountryNameMap && Some(CountryNameMap[countryName]) == selected)
  }

  predicate MatchesFilter(data: MapDataItem, filter: Option<Ideology>) {
    filter.None? || data.ideology == Some(filter.value as int)
  }

  /** `style` as a function of the feature's name, its resolved record, the
      selection, the ideology filter and the colour mode. */
  function FeatureStyle(countryName: string, data: Option<MapDataItem>, selected: Option<string>,
                        filter: Option<Ideology>, colorByIdeology: bool): (p: PathOptions)
    ensures data.None? ==> p.fillColor == NoDataGray && p.fillOpacity == 0.7
    ensures data.Some? && colorByIdeology && !MatchesFilter(data.value, filter) ==>
      p.fillColor == NoDataGray && p.fillOpacity == 0.3
    ensures data.Some? && colorByIdeology && MatchesFilter(data.value, filter) ==>
      p.fillColor == IdeologyColor(data.value.ideology, data.value.avgPopulism) && p.fillOpacity == 0.7
    ensures data.Some? && !colorByIdeology ==>
      p.fillColor == PopulismColor(Some(data.value.avgPopulism)) && p.fillOpacity == 0.7
    ensures p.weight == (if IsSelected(countryName, selected) then 3 else 1)
    ensures p.color == (if IsSelected(countryName, selected) then Hex("#1e40af") else Hex("#999"))
    ensures p.opacity == 1.0
  {
    var selectedNow := IsSelected(countryName, selected);
    var fill :=
      match data
      case None => (NoDataGray, 0.7)
      case Some(d) =>
        if !colorByIdeology then (PopulismColor(Some(d.avgPopulism)), 0.7)
        else if MatchesFilter(d, filter) then (IdeologyColor(d.ideology, d.avgPopulism), 0.7)
        else (NoDataGray, 0.3);
    PathOptions(fill.0, if selectedNow then 3 else 1, 1.0,
                if selectedNow then Hex("#1e40af") else Hex("#999"), fill.1)
  }

  /** `style`, with its `let` variables updated as in the source. */
  method Style(feature: GeoFeature, lookup: map<string, MapDataItem>, selected: Option<string>,
               filter: Option<Ideology>, colorByIdeology: bool) returns (p: PathOptions)
    ensures p == FeatureStyle(FeatureName(feature), Resolve(lookup, FeatureName(feature)), selected, filter, colorByIdeology)
  {
    var countryName := FeatureName(feature);
    var countryData := GetCountryData(lookup, countryName);
    var isSelected := IsSelected(countryName, selected);

    var fillColor := NoDataGray;
    var fillOpacity := 0.7;
    if countryData.Some? {
      if colorByIdeology {
        var matchesFilter := filter.None? || countryData.value.ideology == Some(filter.value as int);
        if matchesFilter {
          fillColor := IdeologyColor(countryData.value.ideology, countryData.value.avgPopulism);
        } else {
          fillColor := NoDataGray;
          fillOpacity := 0.3;
        }
      } else {
        fillColor := PopulismColor(Some(countryData.value.avgPopulism));
      }
    }
    p := PathOptions(fillColor, if isSelected then 3 else 1, 1.0,
                     if isSelected then Hex("#1e40af") else Hex("#999"), fillOpacity);
  }

  /** Dimming happens exactly in ideology mode, for a resolved record that
      does not carry the filtered ideology; populism mode never dims, and
      the record's score plays no part. */
  lemma DimmedIff(countryName: string, data: Option<MapDataItem>, selected: Option<string>,
                  filter: Option<Ideology>, colorByIdeology: bool)
    ensures FeatureStyle(countryName, data, selected, filter, colorByIdeology).fillOpacity == 0.3 <==>
      colorByIdeology && data.Some? && filter.Some? && data.value.ideology != Some(filter.value as int)
  {
  }

  /** A Right record under a Left filter is dimmed gray. */
  lemma DimmingScenario(d: MapDataItem, name: string, selected: Option<string>)
    requires d.ideology == Some(1)
    ensures FeatureStyle(name, Some(d), selected, Some(-1), true).fillColor == NoDataGray
    ensures FeatureStyle(name, Some(d), selected, Some(-1), true).fillOpacity == 0.3
  {
  }

  /** A feature without data can still be drawn as selected: selection looks
      only at the raw name, so a selection that survives a data refresh keeps
      its outline even when the record is gone. */
  lemma UnresolvedFeatureCanBeSelected()
    ensures FeatureStyle("Brazil", None, Some("Brazil"), None, true).weight == 3
  {
  }

  // ---------------------------------------------------------------------
  // Feature binding: tooltip, click, hover
  // ---------------------------------------------------------------------

  /** The API country name when the feature resolved, else the boundary name. */
  function DisplayName(countryName: string, data: Option<MapDataItem>): string {
    if data.Some? && Truthy(data.value.country) then data.value.country else countryName
  }

  function IdeologyLabel(ideology: Option<int>): Option<string> {
    if ideology == Some(-1) then Some("Left")
    else if ideology == Some(0) then Some("Center")
    else if ideology == Some(1) then Some("Right")
    else None
  }

  /** Tooltip as a value: the title, then either "No data available" or the
      score with the ideology label when there is one. */
  datatype TooltipBody = NoDataAvailable | Populism(score: real, ideologyLabel: Option<string>)
  datatype Tooltip = Tooltip(title: string, body: TooltipBody)

  function TooltipFor(countryName: string, data: Option<MapDataItem>): (t: Tooltip)
    ensures t.body.NoDataAvailable? <==> data.None?
    ensures data.Some? ==> t.body.score == data.value.avgPopulism
    ensures data.Some? ==>
      t.body.ideologyLabel ==
        (if data.value.ideology == Some(-1) then Some("Left")
         else if data.value.ideology == Some(0) then Some("Center")
         else if data.value.ideology == Some(1) then Some("Right")
         else None)
    ensures data.Some? && data.value.ideology !in {Some(-1), Some(0), Some(1)} ==> t.body.ideologyLabel.None?
    ensures data.Some? && Truthy(data.value.country) ==> t.title == data.value.country
    ensures data.None? ==> t.title == countryName
  {
    Tooltip(DisplayName(countryName, data),
            if data.None? then NoDataAvailable
            else Populism(data.value.avgPopulism, IdeologyLabel(data.value.ideology)))
  }

  /** The weight the mouse-out handler restores: it compares the DISPLAY
      name, not the raw name or alias that `style` compares. */
  function MouseOutWeight(displayName: string, selected: Option<string>): int {
    if Some(displayName) == selected then 3 else 1
  }

  /** The two selection tests agree on a feature whose record key is its own
      boundary name (and that has no alias), and on an alias-resolved feature
      unless its raw boundary name itself is selected. */
  lemma RestingWeightsAgree(countryName: string, data: Option<MapDataItem>, selected: Option<string>,
                            filter: Option<Ideology>, colorByIdeology: bool)
    requires
      (DisplayName(countryName, data) == countryName && countryName !in CountryNameMap) ||
      (countryName in CountryNameMap && DisplayName(countryName, data) == CountryNameMap[countryName] &&
       selected != Some(countryName))
    ensures MouseOutWeight(DisplayName(countryName, data), selected) ==
      FeatureStyle(countryName, data, selected, filter, colorByIdeology).weight
  {
  }

  /** The two tests disagree on a feature resolved through the lower-case
      key: the boundary name "france" finds the record "France"; after a click
      on it `style` draws weight 1 but leaving it with the mouse sets weight 3. */
  lemma SelectionRulesDisagree(a: MapDataItem)
    requires a.country == "France"
    ensures Resolve(Lookup([a]), "france") == Some(a)
    ensures FeatureStyle("france", Some(a), Some("France"), None, true).weight == 1
    ensures MouseOutWeight(DisplayName("france", Some(a)), Some("France")) == 3
  {
    assert [a][..0] == [];
    assert ToLower("France") == "france";
  }

  /** One bound feature layer: what `onEachFeature` fixes when it binds the
      handlers (the name, the record, the tooltip and the selection they
      close over) and the path style that the hover handlers change. */
  class FeatureLayer {
    const countryName: string
    const countryData: Option<MapDataItem>
    const displayName: string
    const tooltip: Tooltip
    const boundSelection: Option<string>
    var style: PathOptions

    /** Leaflet draws the feature with `style`, then `onEachFeature` binds it. */
    constructor Bind(feature: GeoFeature, lookup: map<string, MapDataItem>, selected: Option<string>,
                     filter: Option<Ideology>, colorByIdeology: bool)
      ensures countryName == FeatureName(feature)
      ensures countryData == Resolve(lookup, countryName)
      ensures displayName == DisplayName(countryName, countryData)
      ensures tooltip == TooltipFor(countryName, countryData)
      ensures boundSelection == selected
      ensures style == FeatureStyle(countryName, countryData, selected, filter, colorByIdeology)
    {
      var name := FeatureName(feature);
      var data := GetCountryData(lookup, name);
      var initial := Style(feature, lookup, selected, filter, colorByIdeology);
      countryName := name;
      countryData := data;
      displayName := DisplayName(name, data);
      tooltip := TooltipFor(name, data);
      boundSelection := selected;
      style := initial;
    }

    /** Click: the canonical key of the record, only when the feature resolved. */
    method Click() returns (emitted: Option<string>)
      ensures countryData.None? ==> emitted.None?
      ensures countryData.Some? ==> emitted == Some(countryData.value.country)
    {
      emitted := None;
      if countryData.Some? {
        emitted := Some(countryData.value.country);
      }
    }

    /** Mouse-over: `setStyle({weight: 2, opacity: 1})`. */
    method MouseOver()
      modifies this
      ensures style == old(style).(weight := 2, opacity := 1.0)
    {
      style := style.(weight := 2, opacity := 1.0);
    }

    /** Mouse-out: `setStyle({weight: displayName === selectedCountry ? 3 : 1})`. */
    method MouseOut()
      modifies this
      ensures style == old(style).(weight := MouseOutWeight(displayName, boundSelection))
    {
      var isSelected := Some(displayName) == boundSelection;
      style := style.(weight := if isSelected then 3 else 1);
    }
  }

  /** The application's selected country: the persistent selection slot that
      clicks set and closing the country panel clears. A change of it
      re-keys the GeoJSON layer, so every feature is bound afresh. */
  class Selection {
    var selectedCountry: Option<string>

    constructor ()
      ensures selectedCountry.None?
    {
      selectedCountry := None;
    }

    /** `onCountryClick = setSelectedCountry`, fed by the layer's click. */
    method OnFeatureClick(layer: FeatureLayer)
      modifies this
      ensures layer.countryData.Some? ==> selectedCountry == Some(layer.countryData.value.country)
      ensures layer.countryData.None? ==> selectedCountry == old(selectedCountry)
    {
      var emitted := layer.Click();
      if emitted.Some? {
        selectedCountry := emitted;
      }
    }

    /** The country panel's close button. */
    method Close()
      modifies this
      ensures selectedCountry.None?
    {
      selectedCountry := None;
    }
  }

  /** Hovering and leaving a feature: the stroke is back to the weight
      `style` gave it whenever the two selection tests agree, and the fill is
      never touched. */
  method HoverAndLeave(layer: FeatureLayer, filter: Option<Ideology>, colorByIdeology: bool)
    requires layer.style == FeatureStyle(layer.countryName, layer.countryData, layer.boundSelection, filter, colorByIdeology)
    requires (layer.displayName == layer.countryName && layer.countryName !in CountryNameMap)
    requires layer.displayName == DisplayName(layer.countryName, layer.countryData)
    modifies layer
    ensures layer.style.weight == old(layer.style.weight)
    ensures layer.style.fillColor == old(layer.style.fillColor) && layer.style.fillOpacity == old(layer.style.fillOpacity)
  {
    layer.MouseOver();
    assert layer.style.weight == 2;
    layer.MouseOut();
    RestingWeightsAgree(layer.countryName, layer.countryData, layer.boundSelection, filter, colorByIdeology);
  }
}
