# Global Populism Database explorer — a Dafny model of its core

The application shows the Global Populism Database on a world map. A FastAPI
backend (`backend/main.py`) loads the database's CSV file into a pandas frame
and answers four queries:

- the filtered records;
- one aggregate per country for the map;
- the sorted list of countries;
- the timeline of one country's leader terms.

A React frontend (`frontend-react/src`) builds the query strings for these
requests (`api/index.ts`). It joins the map data to the boundary features and
styles every feature (`components/MapView.tsx`). It draws a country's timeline
cards and the map legend (`components/CountryPanel.tsx`). A speech explorer
(`components/Speeches.tsx`) offers filters, a score sort, and a reset of the
selected speech whenever a filter changes.

The model is split into these files:

- `optional.dfy`: `Option` and `Result`.
- `text.dfy`: JavaScript string truthiness, ASCII lower-casing, and Python's
  code-point string order that `sorted` uses on the unique countries.
- `seqs.dfy`: order-keeping filters, a stable sort by a real key, and their
  lemmas.
- `scales.dfy`: the five-bucket score rule that three components each write
  out as their own if-chain.
- `types.dfy`: the records the frontend receives.
- `mapview.dfy`: the join and style engine. Feature layers and the
  application's selected country are classes whose handlers update them.
- `speeches.dfy`: the speech explorer's colour and label rules, its sort, and
  a class holding its `useState` slots.
- `countrypanel.dfy`: the score bars and the legend.
- `backend.dfy`: the query semantics over the frame, taken as a sequence of
  rows. NaN is `None`. Every boolean mask keeps frame order.
- `api.dfy`: the `URLSearchParams` builders. One generic proof shows that a
  run of conditional `set` calls on distinct keys ends with exactly the pairs
  its rule sends, in call order. The file also has lemmas joining the
  builders to the component state and to the backend.

Query keys are an enumeration. `Api.Name` gives the text each key is written
as, and `Api.NameInjective` shows that no two keys share a name.

Some behaviour of the code is easy to misread. The model follows the code
as written, and lemmas show each point:

- The comment at `frontend-react/src/components/MapView.tsx:29` says the
  populism score is normalised to the range 0 to 1. Line 30 computes
  `Math.min(populism / 2, 1)`, which has no lower bound. A negative score
  gives a lightness above the 70% that the comment at line 32 names as the
  light end (`MapView.LightnessNotClampedBelow`).
- The alias step of `getCountryData` (MapView.tsx:88-92) looks the alias
  target up exactly. Unlike the boundary name at line 84, the target gets no
  lower-case retry (`MapView.AliasHasNoLowerCaseRetry`).
- `style` tests selection on the raw boundary name and its alias
  (MapView.tsx:100-101), without looking at the resolved record. So a feature
  without data can be drawn with the selection outline
  (`MapView.UnresolvedFeatureCanBeSelected`).
- The mouse-out handler (MapView.tsx:167) tests the display name instead.
  The two tests can disagree (`MapView.SelectionRulesDisagree`).
- `CountryPanel` declares a `colorByIdeology` prop (CountryPanel.tsx:7) and
  switches the legend on it (line 74). `App.tsx:59-62` does not pass it, so
  the legend always shows the score buckets (`CountryPanel.LegendAsWired`).
- The frontend's `MapDataItem` has an `ideology` field
  (`frontend-react/src/types/index.ts:81`). The map-data entries that
  `backend/main.py:242-248` builds have none. The ideology colouring of the
  map therefore never finds a matching record
  (`Api.IdeologyModeAgainstThisBackend`).
- `fetchSpeeches` requests `/speeches` (index.ts:87), but `backend/main.py`
  declares no such route. The speech explorer's builder is modelled only up
  to the parameters it sends.

## Model

| member | source | states |
|---|---|---|
| Scales.Bucket | frontend-react/src/components/MapView.tsx:53-57 | the bucket of a score lies in 0..4, holds the score at or above its lower threshold and below the next one |
| Scales.BucketsClosedBelow | frontend-react/src/components/Speeches.tsx:93-99 | each threshold lies in the bucket it opens; any lower score lies in a lower bucket, any higher one in that bucket or above |
| Scales.BucketMonotone | frontend-react/src/components/CountryPanel.tsx:10-16 | a higher score never lands in a lower bucket |
| Text.ToLower | frontend-react/src/components/MapView.tsx:75 | lower-casing keeps the length, turns each upper-case letter into its lower-case letter and changes no other character |
| Text.ToLowerIdempotent | frontend-react/src/components/MapView.tsx:84 | lower-casing an already lower-cased name changes nothing |
| Text.SortStrings | backend/main.py:69 | the result is sorted in code-point order, has the input's length and elements, and keeps its distinctness |
| Text.Unique | backend/main.py:67 | the result has no duplicates and holds exactly the input's elements |
| Seqs.SortByKey | frontend-react/src/components/Speeches.tsx:36-42 | the result is sorted by the key and is a permutation of the input |
| MapView.IdeologyColor | frontend-react/src/components/MapView.tsx:28-48 | hue 220, 160 or 0 at 70% saturation for Left, Center and Right; for any other value, gray at the shade plus 20 |
| MapView.LightnessScale | frontend-react/src/components/MapView.tsx:30-33 | the shade darkens as populism grows: 70% at 0, 25% from 2 on, and within [25, 70] on [0, 2] |
| MapView.LightnessNotClampedBelow | frontend-react/src/components/MapView.tsx:30 | a score of -2 gives a lightness of 115%, because intensity has no lower clamp |
| MapView.PopulismColor | frontend-react/src/components/MapView.tsx:51-58 | gray #e5e7eb for a missing score; otherwise the palette colour of the score's bucket |
| MapView.PopulismColorBoundaries | frontend-react/src/components/MapView.tsx:53-57 | 1.5 is already the darkest colour; each half-open interval between thresholds gets its colour |
| MapView.LookupContents | frontend-react/src/components/MapView.tsx:72-76 | a key is in the lookup iff some item has that country or its lower case; the key holds the last such item |
| MapView.BuildLookup | frontend-react/src/components/MapView.tsx:72-76 | the `forEach` loop builds the lookup that `Lookup` defines |
| MapView.GetCountryData | frontend-react/src/components/MapView.tsx:78-95 | the step-by-step lookup returns what `Resolve` defines, and only values stored in the lookup |
| MapView.ResolvedFromData | frontend-react/src/components/MapView.tsx:78-95 | a resolved record is always one of the map-data items |
| MapView.ExactMatchWins | frontend-react/src/components/MapView.tsx:80-81 | a name that the i-th item names, and no later item does, resolves to that item |
| MapView.LaterLowerCaseKeyShadowsExactKey | frontend-react/src/components/MapView.tsx:74-75 | with records "uk" then "UK", the name "uk" resolves to "UK": a later lower-case key overwrites an earlier exact key |
| MapView.LowerCaseFallback | frontend-react/src/components/MapView.tsx:84-85 | a name that no item names still resolves when an item's lower-cased country equals its lower case |
| MapView.AliasFallback | frontend-react/src/components/MapView.tsx:88-94 | when neither spelling is a key: no result for a name outside the alias table; for an alias, a result iff some item names the target |
| MapView.AliasHasNoLowerCaseRetry | frontend-react/src/components/MapView.tsx:88-91 | with only "united states" in the data, "United States of America" resolves to nothing |
| MapView.AliasScenario | frontend-react/src/components/MapView.tsx:17-24 | "United States of America" resolves to the record "United States" through the alias table |
| MapView.FeatureStyle | frontend-react/src/components/MapView.tsx:97-131 | gray at 0.7 without data; gray at 0.3 under a non-matching ideology filter; otherwise the ideology or bucket colour at 0.7. Weight 3 and dark blue when selected, else 1 and gray |
| MapView.Style | frontend-react/src/components/MapView.tsx:97-131 | the imperative `style` computes `FeatureStyle` of the feature's name and resolved record |
| MapView.DimmedIff | frontend-react/src/components/MapView.tsx:107-117 | a feature is dimmed iff the map is in ideology mode with a filter and the record has data but another ideology |
| MapView.DimmingScenario | frontend-react/src/components/MapView.tsx:109-116 | a Right record under a Left filter is painted gray at opacity 0.3 |
| MapView.UnresolvedFeatureCanBeSelected | frontend-react/src/components/MapView.tsx:100-101 | a feature without data whose name is selected is drawn with weight 3 |
| MapView.TooltipFor | frontend-react/src/components/MapView.tsx:138-150 | "No data available" iff unresolved; otherwise the record's score with the label Left, Center or Right for -1, 0 or 1 and no label for any other value; the API name as title when resolved |
| MapView.RestingWeightsAgree | frontend-react/src/components/MapView.tsx:165-171 | mouse-out restores `style`'s weight for a feature named like its record and without an alias, and for an alias-resolved feature whose raw name is not selected |
| MapView.SelectionRulesDisagree | frontend-react/src/components/MapView.tsx:100-101 | "france" resolves to "France"; with "France" selected, `style` gives weight 1 but mouse-out sets 3 |
| MapView.FeatureLayer.Bind | frontend-react/src/components/MapView.tsx:133-150 | binding fixes the feature's name, resolved record, display name, tooltip and selection; the path starts with `FeatureStyle` |
| MapView.FeatureLayer.Click | frontend-react/src/components/MapView.tsx:153-157 | a click emits the record's canonical country only when the feature resolved |
| MapView.FeatureLayer.MouseOver | frontend-react/src/components/MapView.tsx:158-164 | sets weight 2 and opacity 1; the rest of the path is unchanged |
| MapView.FeatureLayer.MouseOut | frontend-react/src/components/MapView.tsx:165-171 | sets weight 3 when the display name is selected, else 1; the rest is unchanged |
| MapView.Selection.constructor | frontend-react/src/App.tsx:15 | no country is selected at start |
| MapView.Selection.OnFeatureClick | frontend-react/src/App.tsx:51 | a click on a resolved feature selects its record's country; a click on an unresolved one changes nothing |
| MapView.Selection.Close | frontend-react/src/App.tsx:61 | closing the panel clears the selection |
| MapView.HoverAndLeave | frontend-react/src/components/MapView.tsx:158-171 | hovering and leaving a feature named like its record restores its weight and never touches its fill |
| Speeches.ScoreColor | frontend-react/src/components/Speeches.tsx:93-99 | the text class of the score's bucket |
| Speeches.IdeologyDotColor | frontend-react/src/components/Speeches.tsx:76-81 | blue, emerald and red for -1, 0 and 1; gray iff the value is anything else, null included |
| Speeches.SpeechTypeLabel | frontend-react/src/components/Speeches.tsx:83-91 | the label of a known type, the type itself otherwise |
| Speeches.SortedSpeeches | frontend-react/src/components/Speeches.tsx:33-42 | a permutation of the speeches (empty without a response), ascending or descending by score as the order says |
| Speeches.ToggledIdeology | frontend-react/src/components/Speeches.tsx:141 | the filter is cleared iff the clicked ideology was selected, else it becomes the clicked one |
| Speeches.ToggleTwice | frontend-react/src/components/Speeches.tsx:141 | two clicks on one button restore an empty or equal selection |
| Speeches.ClearFiltersHiddenIffDefaults | frontend-react/src/components/Speeches.tsx:184 | the clear control is hidden iff country, ideology and speech type are at their defaults |
| Speeches.Explorer.constructor | frontend-react/src/components/Speeches.tsx:7-13 | the initial state: no filters, type "total", no speech, descending, no analysis |
| Speeches.Explorer.ChangeFilters | frontend-react/src/components/Speeches.tsx:55-62 | sets the filters; speech, analysis and its display are cleared iff a filter changed; the sort is kept |
| Speeches.Explorer.SetCountry | frontend-react/src/components/Speeches.tsx:118 | sets the country; other filters and the sort order are kept; the speech is cleared iff the country changed, and otherwise the speech and analysis are kept |
| Speeches.Explorer.ClickIdeology | frontend-react/src/components/Speeches.tsx:141 | toggles the ideology and always clears the selected speech and analysis; the sort order is kept |
| Speeches.Explorer.SetSpeechType | frontend-react/src/components/Speeches.tsx:159 | sets the speech type; the sort order is kept; the speech is cleared iff it changed, and otherwise the speech and analysis are kept |
| Speeches.Explorer.ClearFilters | frontend-react/src/components/Speeches.tsx:184-190 | back to the defaults; the speech is cleared exactly when the control was visible, and otherwise the speech and analysis are kept; the sort order is kept |
| Speeches.Explorer.SetSortOrder | frontend-react/src/components/Speeches.tsx:175 | changes only the order; the speech, the analysis display and its data, and each of the three filters are kept |
| Speeches.Explorer.SelectSpeech | frontend-react/src/components/Speeches.tsx:214 | selects the file; each of the three filters, the sort order, the analysis display and any earlier analysis are kept |
| Speeches.Explorer.CloseSpeech | frontend-react/src/components/Speeches.tsx:322 | clears the file only; each of the three filters, the sort order and the analysis stay as they were |
| Speeches.Explorer.ToggleAnalysis | frontend-react/src/components/Speeches.tsx:343 | flips the analysis display; the file, the analysis data, each of the three filters and the sort order are kept |
| CountryPanel.ScoreColor | frontend-react/src/components/CountryPanel.tsx:10-16 | the bar class of the score's bucket |
| CountryPanel.ScoreBar | frontend-react/src/components/CountryPanel.tsx:18-35 | no bar iff the score is missing; otherwise its caption, score and bucket class, with a height of 50 × score and at least 5% |
| CountryPanel.BarNotCappedAbove | frontend-react/src/components/CountryPanel.tsx:21 | a score of 3.0 draws a bar of 150% |
| CountryPanel.BarHeightBounds | frontend-react/src/components/CountryPanel.tsx:21 | bar heights are monotone in the score and at most 100% up to a score of 2 |
| CountryPanel.CardScores | frontend-react/src/components/CountryPanel.tsx:38-44 | one to five entries, the total first, all with a score; exactly the candidates that have one |
| CountryPanel.CardBars | frontend-react/src/components/CountryPanel.tsx:55-58 | one bar per present score, the i-th bar drawn from the i-th score |
| CountryPanel.CardScoresInOrder | frontend-react/src/components/CountryPanel.tsx:38-44 | the present scores keep the display order Tot, Cmp, Fam, Intl, Rib |
| CountryPanel.FullCardShowsFiveBars | frontend-react/src/components/CountryPanel.tsx:38-44 | with all four speech types scored, all five candidates are shown |
| CountryPanel.LegendFor | frontend-react/src/components/CountryPanel.tsx:74-114 | the ideology legend iff the prop is true; otherwise the five bucket rows |
| CountryPanel.LegendMatchesMap | frontend-react/src/components/CountryPanel.tsx:101-107 | row k's lower bound lies in bucket 4 − k, its upper bound opens the next bucket, and its colour is the one the map paints |
| CountryPanel.LegendAsWired | frontend-react/src/App.tsx:59-62 | without the prop the panel shows the bucket legend, also while the map is coloured by ideology |
| CountryPanel.SwatchesMatchSpeechDots | frontend-react/src/components/CountryPanel.tsx:76-89 | the Left, Ctr and Right swatches use the speech explorer's dot colours |
| Backend.YearEndNumeric | backend/main.py:37-38 | "current" becomes 2026; every other value goes through the numeric conversion |
| Backend.LoadFrame | backend/main.py:34-38 | one row per CSV row, each with its derived `yearend_numeric` |
| Backend.YearFilter | backend/main.py:127-139 | keeps exactly the rows in the year range, each as often as it occurs in the frame and in frame order (a subsequence with the same count of every kept row) |
| Backend.YearFilterOverlap | backend/main.py:129-133 | with both bounds a term is kept iff it began by the end year and ended no earlier than the start year |
| Backend.YearFilterComposes | backend/main.py:129-139 | the two-bound filter equals the start-only filter followed by the end-only filter |
| Backend.YearFilterZeroIsAbsent | backend/main.py:129-139 | a bound of 0 acts as a missing bound; without bounds every row is kept in order |
| Backend.CurrentTermReachesPresent | backend/main.py:37 | a running term passes any start year up to 2026 |
| Backend.MinPopulismFilter | backend/main.py:141-142 | with a minimum, keeps exactly the rows whose total is present and at least the minimum, each as often as it occurs and in frame order; otherwise all rows |
| Backend.MinPopulismZeroDropsNaN | backend/main.py:141-142 | a minimum of 0.0 drops a row with no total; no minimum keeps it |
| Backend.CountryFilter | backend/main.py:121-122 | a non-empty country keeps exactly that country's rows, each as often as it occurs and in frame order; otherwise all |
| Backend.LeaderFilter | backend/main.py:124-125 | a non-empty leader keeps exactly that leader's rows, each as often as it occurs and in frame order; otherwise all |
| Backend.ColumnName | backend/main.py:145 | every record key is written as a non-empty column name |
| Backend.ToRecord | backend/main.py:145 | a record has exactly the modelled columns; country, leader, party, term, years, regions and every score column hold the row's values, a missing text or score as NaN |
| Backend.Cleaned | backend/main.py:147-151 | same keys, every NaN becomes None, no NaN left, and every non-NaN value kept |
| Backend.CleanedIdempotent | backend/main.py:147-151 | cleaning a cleaned record changes nothing |
| Backend.CleanRecord | backend/main.py:149-151 | the key-by-key loop computes `Cleaned` of the record |
| Backend.CleanRecords | backend/main.py:148-151 | every record of the list is replaced by its cleaned form |
| Backend.GetData | backend/main.py:107-156 | 500 iff no frame; else the filtered rows as cleaned records, in order, with their count |
| Backend.DataHasNoNaN | backend/main.py:147-156 | every returned record has the modelled columns, holds its row's values with each NaN replaced by None, and no value is NaN |
| Backend.ScoreColumnFor | backend/main.py:219-227 | a known speech type selects its column; anything else, a missing one included, selects the total |
| Backend.ScoreColumnsDistinct | backend/main.py:219-225 | different known speech types select different columns |
| Backend.PresentScores | backend/main.py:231 | one value for each row whose score is present, in row order; exactly the non-NaN values of the column, no more of them than rows |
| Backend.SumBounds | backend/main.py:231 | a sum of n values in [lo, hi] lies in [n·lo, n·hi] |
| Backend.MeanBounds | backend/main.py:231 | the mean is NaN iff there are no values, and otherwise lies between their bounds |
| Backend.FirstPresent | backend/main.py:232-233 | NaN iff every value is NaN; otherwise the first non-NaN value |
| Backend.RowsOf | backend/main.py:230 | exactly the rows of one country, each as often as it occurs and in frame order |
| Backend.Countries | backend/main.py:67 | the country column: one entry per row, holding exactly the frame's countries |
| Backend.GroupKeys | backend/main.py:230 | the group keys are sorted, distinct and exactly the countries present |
| Backend.GroupBy | backend/main.py:230-237 | one aggregate per sorted key, each the aggregate of that country's rows |
| Backend.ToMapEntry | backend/main.py:242-248 | 0 for a NaN mean and "Unknown" for a NaN region; country and count kept |
| Backend.BuildMapData | backend/main.py:239-248 | the loop appends one entry per grouped row, in order |
| Backend.GetMapData | backend/main.py:189-257 | 500 iff no frame; else the entries of the year-filtered, grouped frame, and the filters echoed |
| Backend.EntryCountries | backend/main.py:243 | the countries of the entries, in order |
| Backend.MapEntriesOnePerCountry | backend/main.py:229-248 | entries are sorted by country, one per country, and a country has one iff it has a row in the year range |
| Backend.MapEntryAggregates | backend/main.py:229-248 | `num_terms` counts rows with a leader; the average is 0 without scores, else between the scores' bounds; the region and the World Bank region are the first ones the country's rows name (pandas' `first`), and "Unknown" if no row names one |
| Backend.GetCountries | backend/main.py:61-71 | 500 iff no frame; else sorted, distinct, exactly the frame's countries, with their count |
| Backend.CountriesCountIsDistinct | backend/main.py:67-70 | the count is the number of distinct countries |
| Backend.TimelineRows | backend/main.py:266-272 | the country's rows, permuted into non-decreasing start year |
| Backend.ToTimelineItem | backend/main.py:276-287 | start year, term, leader and party kept; "current" ends in 2026; a NaN total becomes 0; the other scores are passed through, and a missing one stays missing |
| Backend.GetTimeline | backend/main.py:260-293 | 500 without a frame; 404 iff the country has no row; else one item per row in year order, with the count |
| Backend.TimelineFromCountryRows | backend/main.py:266-293 | the items are as many as the country's rows, ordered by start year, and each comes from one of them |
| Api.Name | frontend-react/src/api/index.ts:36-40 | every key is written as a non-empty name |
| Api.NameInjective | frontend-react/src/api/index.ts:55-60 | different keys have different names |
| Api.Keys | frontend-react/src/api/index.ts:35 | the keys of a parameter list, in order |
| Api.RemoveKey | frontend-react/src/api/index.ts:36 | keeps exactly the entries with another key |
| Api.ReplaceFirst | frontend-react/src/api/index.ts:36 | the new pair plus exactly the entries with other keys |
| Api.SetParamContents | frontend-react/src/api/index.ts:36 | `set` appends a new key; afterwards the key has only the new value, every other entry is kept, and one value per key is preserved |
| Api.SetTwice | frontend-react/src/api/index.ts:55-56 | setting a key twice leaves the same entries as setting it once to the second value |
| Api.BuiltEmpty | frontend-react/src/api/index.ts:35 | the empty list is the result of no calls |
| Api.BuiltStep | frontend-react/src/api/index.ts:36-40 | one conditional `set` of a new key extends the built state by that key |
| Api.SetFirstBuilt | frontend-react/src/api/index.ts:35-40 | the first n conditional calls on distinct keys give the built state of those n keys |
| Api.SetAllExactly | frontend-react/src/api/index.ts:54-61 | all the calls together give exactly the pairs the rule sends |
| Api.BuiltInOrder | frontend-react/src/api/index.ts:80-85 | the i-th entry is the i-th sent key with the rule's value for it |
| Api.DataValue | frontend-react/src/api/index.ts:36-40 | only the five keys are sent; the start year iff truthy; the minimum score iff non-zero |
| Api.DataRuleAtKeys | frontend-react/src/api/index.ts:36-40 | the rule's value at each key, in call order |
| Api.DataSetCalls | frontend-react/src/api/index.ts:35-40 | the five calls build exactly the pairs of `DataValue` |
| Api.DataQuery | frontend-react/src/api/index.ts:28-45 | the list holds exactly the pairs `DataValue` gives, one per key, in call order |
| Api.DataQueryDropsZeros | frontend-react/src/api/index.ts:38-40 | a start year of 0 and a minimum of 0.0 are not sent |
| Api.MapValue | frontend-react/src/api/index.ts:55-61 | only the five keys are sent; the ideology iff present and not null; `time_weighted` iff the flag is true |
| Api.MapRuleAtKeys | frontend-react/src/api/index.ts:55-61 | the rule's value at each key, in call order |
| Api.MapSetCalls | frontend-react/src/api/index.ts:54-61 | the five calls build exactly the pairs of `MapValue` |
| Api.MapQuery | frontend-react/src/api/index.ts:47-67 | the list holds exactly the pairs `MapValue` gives, one per key, in call order |
| Api.MapQuerySendsCenter | frontend-react/src/api/index.ts:59-61 | the Center ideology 0 is sent although it is falsy |
| Api.AppMapParams | frontend-react/src/App.tsx:18-23 | the ideology is null iff none is chosen; no time weighting is asked for |
| Api.AppMapQuery | frontend-react/src/App.tsx:18-23 | years are sent iff non-zero, the type iff non-empty, never `time_weighted`, and the ideology exactly when chosen |
| Api.AppInitialMapQuery | frontend-react/src/App.tsx:10-13 | at start-up 1990, 2026 and "total" are sent, with no weighting and no ideology |
| Api.ReceiveMapData | frontend-react/src/api/index.ts:65-66 | one item per entry of `map_data`, each with the entry's fields and no ideology |
| Api.IdeologyModeAgainstThisBackend | backend/main.py:242-248 | in ideology mode every received record is dimmed under a filter, and painted zero-saturation gray without one |
| Api.SpeechesValue | frontend-react/src/api/index.ts:81-85 | only the three keys are sent; the ideology iff given; the speech type never as "total" |
| Api.SpeechesRuleAtKeys | frontend-react/src/api/index.ts:81-85 | the rule's value at each key, in call order |
| Api.SpeechesSetCalls | frontend-react/src/api/index.ts:80-85 | the three calls build exactly the pairs of `SpeechesValue` |
| Api.SpeechesQuery | frontend-react/src/api/index.ts:75-90 | the list holds exactly the pairs `SpeechesValue` gives, one per key, in call order |
| Api.ExplorerParams | frontend-react/src/components/Speeches.tsx:17-21 | the country iff chosen; a null ideology becomes missing |
| Api.ExplorerQueryMatchesFilters | frontend-react/src/components/Speeches.tsx:17-21 | the explorer's query is empty iff the filters are at their defaults, or the type is empty with no other filter; Center is sent |
| Api.AnalyzeUrl | frontend-react/src/api/index.ts:98-102 | the analyse path, with `?model_id=` only when a model id is given |

## Left out

- Network I/O (`fetch`), React Query caching and loading states, and the GeoJSON download are not modelled. A builder ends with its parameter list, and a view with its computed value.
- `handleAnalyze`, the asynchronous speech analysis, is left out. Only the state it writes appears, as `analysisData` and `showAnalysis`.
- Number formatting (`toString`, `toFixed`, `toLocaleString`), HSL and CSS strings, and `encodeURIComponent` are left out. Query values stay typed, colours are values, and the encoder is a parameter of `Api.AnalyzeUrl`.
- Floating point is not modelled. Scores are mathematical reals, and pandas' mean carries no rounding.
- Text.ToLower: covers the ASCII letters only. JavaScript's full Unicode case mapping is out of scope.
- MapView.Resolve: plain map membership stands for lookups in the JavaScript object `COUNTRY_NAME_MAP`. Prototype keys such as "constructor" are not modelled.
- Speeches.SpeechTypeLabel: plain map membership stands for the lookup in the object literal `labels`. A prototype key such as "constructor" finds an inherited `Object` method, which is truthy and is returned in place of the type; this is not modelled.
- Backend.TimelineRows: a stable sort stands for pandas' default sort, which is not stable. This is one of the orders pandas may produce, so the contract states only sortedness and permutation.
- Backend.YearEndNumeric: `pd.to_numeric(..., errors='coerce')` is a parameter, because pandas' parsing of numerals is out of scope.
- Backend.ToRecord: keeps the thirteen CSV columns the endpoints read plus `yearend_numeric`. The other columns that `to_dict('records')` also returns are not modelled: `lr`, `president`, `startofterm`, `endofterm`, the speech file names and the per-speech scores. Record keys are the `Column` enumeration, and `ColumnName` gives the JSON key of each.
- Backend.LoadFrame: reading the CSV file and the FastAPI start-up hook are left out. `yearbegin`, `term` and `yearend` are taken to be present in every row. With a missing `term`, `int(row['term'])` (backend/main.py:281) raises and the timeline answers 500; a missing `yearend` is passed through as NaN (backend/main.py:280). Neither case is modelled.
- The JSON encoding of responses is not modelled; in particular, a NaN leader in a timeline item is not encoded.
- FastAPI routing and parameter parsing are left out, as are the endpoints outside the core.
- Presentation components (header, sidebar, about page, password prompt) are left out. The map's loading placeholder and the scroll reset in the speech explorer are left out too.
- `/api/speeches` and speech contents are served by code outside `backend/main.py`. That code is not part of this model.
