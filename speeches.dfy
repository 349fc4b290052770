/** The speech explorer (frontend-react/src/components/Speeches.tsx): its
    colour and label rules, the score sort of the speech list, and the
    filter state with the reset that a filter change triggers. */
module Speeches {
  import opened Optional
  import opened Text
  import opened Types
  import opened Scales
  import opened Seqs

  // ---------------------------------------------------------------------
  // Colours and labels
  // ---------------------------------------------------------------------

  const ScorePalette: seq<string> :=
    ["text-green-600", "text-yellow-600", "text-orange-500", "text-red-600 font-semibold", "text-red-700 font-bold"]

  /** `getScoreColor`: the same closed-below buckets as the map. */
  function ScoreColor(score: real): (c: string)
    ensures c == ScorePalette[Bucket(score)]
  {
    if score >= 1.5 then "text-red-700 font-bold"
    else if score >= 1.0 then "text-red-600 font-semibold"
    else if score >= 0.5 then "text-orange-500"
    else if score >= 0.2 then "text-yellow-600"
    else "text-green-600"
  }

  /** `getIdeologyColor`: blue, emerald, red for the three ideologies and
      gray for anything else, `null` included. */
  function IdeologyDotColor(ideology: Option<int>): (c: string)
    ensures ideology == Some(-1) ==> c == "bg-blue-500"
    ensures ideology == Some(0) ==> c == "bg-emerald-500"
    ensures ideology == Some(1) ==> c == "bg-red-500"
    ensures c == "bg-gray-400" <==> ideology !in {Some(-1), Some(0), Some(1)}
  {
    if ideology == Some(-1) then "bg-blue-500"
    else if ideology == Some(0) then "bg-emerald-500"
    else if ideology == Some(1) then "bg-red-500"
    else "bg-gray-400"
  }

  const SpeechTypeLabels: map<string, string> := map[
    "campaign" := "Campaign",
    "famous" := "Famous",
    "international" := "International",
    "ribbon" := "Ribbon-cutting"]

  /** `labels[type] || type`. */
  function SpeechTypeLabel(speechType: string): (shown: string)
    ensures speechType in SpeechTypeLabels ==> shown == SpeechTypeLabels[speechType]
    ensures speechType !in SpeechTypeLabels ==> shown == speechType
  {
    if speechType in SpeechTypeLabels && Truthy(SpeechTypeLabels[speechType]) then SpeechTypeLabels[speechType]
    else speechType
  }

  // ---------------------------------------------------------------------
  // The score sort
  // ---------------------------------------------------------------------

  datatype SortOrder = Asc | Desc

  /** `a.populism_score - b.populism_score` orders by score; the descending
      comparator is the ascending one on the negated score. */
  function SortKey(order: SortOrder): SpeechItem -> real {
    match order
    case Asc => (s: SpeechItem) => s.populismScore
    case Desc => (s: SpeechItem) => -s.populismScore
  }

  /** `[...rawSpeeches].sort(...)` with `rawSpeeches = speechesData?.speeches || []`:
      a sorted copy, the response itself left as it is. */
  function SortedSpeeches(speeches: Option<seq<SpeechItem>>, order: SortOrder): (r: seq<SpeechItem>)
    ensures multiset(r) == multiset(speeches.GetOr([]))
    ensures order == Asc ==> forall i, j :: 0 <= i < j < |r| ==> r[i].populismScore <= r[j].populismScore
    ensures order == Desc ==> forall i, j :: 0 <= i < j < |r| ==> r[i].populismScore >= r[j].populismScore
  {
    var raw := speeches.GetOr([]);
    var r := SortByKey(raw, SortKey(order));
    assert SortedByKey(r, SortKey(order));
    r
  }

  // ---------------------------------------------------------------------
  // Filter state
  // ---------------------------------------------------------------------

  /** The value an ideology button sets: clicking the selected ideology
      clears it, clicking another one selects that. */
  function ToggledIdeology(current: Option<Ideology>, clicked: Ideology): (next: Option<Ideology>)
    ensures next.None? <==> current == Some(clicked)
    ensures next.Some? ==> next.value == clicked
  {
    if current == Some(clicked) then None else Some(clicked)
  }

  /** Clicking the same button twice gives back the state before, when that
      state was "none" or this ideology. */
  lemma ToggleTwice(current: Option<Ideology>, clicked: Ideology)
    requires current.None? || current == Some(clicked)
    ensures ToggledIdeology(ToggledIdeology(current, clicked), clicked) == current
  {
  }

  /** The "Clear All Filters" control is shown when any filter is off its default. */
  predicate ClearFiltersVisible(country: string, ideology: Option<Ideology>, speechType: string) {
    Truthy(country) || ideology.Some? || speechType != "total"
  }

  lemma ClearFiltersHiddenIffDefaults(country: string, ideology: Option<Ideology>, speechType: string)
    ensures !ClearFiltersVisible(country, ideology, speechType) <==>
      country == "" && ideology.None? && speechType == "total"
  {
  }

  /** The result of the speech-analysis request, kept in component state. */
  datatype Analysis = Analysis(filename: string, summary: string, populismAssessment: string,
                               analyzedWords: int, totalWords: int)

  /** The component's `useState` slots. */
  class Explorer {
    var selectedCountry: string
    var selectedIdeology: Option<Ideology>
    var selectedSpeechType: string
    var selectedFilename: Option<string>
    var sortOrder: SortOrder
    var showAnalysis: bool
    var analysisData: Option<Analysis>

    predicate AtDefaults()
      reads this
    {
      selectedCountry == "" && selectedIdeology.None? && selectedSpeechType == "total"
    }

    constructor ()
      ensures AtDefaults()
      ensures selectedFilename.None? && sortOrder == Desc && !showAnalysis && analysisData.None?
    {
      selectedCountry := "";
      selectedIdeology := None;
      selectedSpeechType := "total";
      selectedFilename := None;
      sortOrder := Desc;
      showAnalysis := false;
      analysisData := None;
    }

    /** Sets the three filters together, then runs the effect whose
        dependencies are those filters: it fires only if one of them changed,
        and clears the selected speech and its analysis. */
    method ChangeFilters(country: string, ideology: Option<Ideology>, speechType: string)
      modifies this
      ensures selectedCountry == country && selectedIdeology == ideology && selectedSpeechType == speechType
      ensures sortOrder == old(sortOrder)
      ensures var changed := country != old(selectedCountry) || ideology != old(selectedIdeology) ||
                             speechType != old(selectedSpeechType);
        if changed then selectedFilename.None? && !showAnalysis && analysisData.None?
        else selectedFilename == old(selectedFilename) && showAnalysis == old(showAnalysis) &&
             analysisData == old(analysisData)
    {
      var changed := country != selectedCountry || ideology != selectedIdeology || speechType != selectedSpeechType;
      selectedCountry := country;
      selectedIdeology := ideology;
      selectedSpeechType := speechType;
      if changed {
        selectedFilename := None;
        showAnalysis := false;
        analysisData := None;
      }
    }

    /** The country select. */
    method SetCountry(country: string)
      modifies this
      ensures selectedCountry == country
      ensures selectedIdeology == old(selectedIdeology) && selectedSpeechType == old(selectedSpeechType)
      ensures country != old(selectedCountry) ==> selectedFilename.None? && !showAnalysis && analysisData.None?
      ensures country == old(selectedCountry) ==>
        selectedFilename == old(selectedFilename) && showAnalysis == old(showAnalysis) &&
        analysisData == old(analysisData)
      ensures sortOrder == old(sortOrder)
    {
      ChangeFilters(country, selectedIdeology, selectedSpeechType);
    }

    /** An ideology button: the filter always changes, so the selected
        speech is always cleared. */
    method ClickIdeology(clicked: Ideology)
      modifies this
      ensures selectedIdeology == ToggledIdeology(old(selectedIdeology), clicked)
      ensures selectedCountry == old(selectedCountry) && selectedSpeechType == old(selectedSpeechType)
      ensures selectedFilename.None? && !showAnalysis && analysisData.None?
      ensures sortOrder == old(sortOrder)
    {
      ChangeFilters(selectedCountry, ToggledIdeology(selectedIdeology, clicked), selectedSpeechType);
    }

    /** The speech-type select. */
    method SetSpeechType(speechType: string)
      modifies this
      ensures selectedSpeechType == speechType
      ensures selectedCountry == old(selectedCountry) && selectedIdeology == old(selectedIdeology)
      ensures speechType != old(selectedSpeechType) ==> selectedFilename.None? && !showAnalysis && analysisData.None?
      ensures speechType == old(selectedSpeechType) ==>
        selectedFilename == old(selectedFilename) && showAnalysis == old(showAnalysis) &&
        analysisData == old(analysisData)
      ensures sortOrder == old(sortOrder)
    {
      ChangeFilters(selectedCountry, selectedIdeology, speechType);
    }

    /** "Clear All Filters": back to the defaults; the selected speech is
        cleared exactly when the control was visible. */
    method ClearFilters()
      modifies this
      ensures AtDefaults()
      ensures old(ClearFiltersVisible(selectedCountry, selectedIdeology, selectedSpeechType)) ==>
        selectedFilename.None? && !showAnalysis && analysisData.None?
      ensures !old(ClearFiltersVisible(selectedCountry, selectedIdeology, selectedSpeechType)) ==>
        selectedFilename == old(selectedFilename) && showAnalysis == old(showAnalysis) &&
        analysisData == old(analysisData)
      ensures sortOrder == old(sortOrder)
    {
      ChangeFilters("", None, "total");
    }

    /** The sort-order select: not a dependency of the reset effect. */
    method SetSortOrder(order: SortOrder)
      modifies this
      ensures sortOrder == order
      ensures selectedFilename == old(selectedFilename) && showAnalysis == old(showAnalysis) &&
              analysisData == old(analysisData)
      ensures selectedCountry == old(selectedCountry) && selectedIdeology == old(selectedIdeology) &&
              selectedSpeechType == old(selectedSpeechType)
    {
      sortOrder := order;
    }

    /** Clicking a speech in the list selects its file. */
    method SelectSpeech(filename: string)
      modifies this
      ensures selectedFilename == Some(filename)
      ensures showAnalysis == old(showAnalysis) && analysisData == old(analysisData)
      ensures selectedCountry == old(selectedCountry) && selectedIdeology == old(selectedIdeology) &&
              selectedSpeechType == old(selectedSpeechType)
      ensures sortOrder == old(sortOrder)
    {
      selectedFilename := Some(filename);
    }

    /** The close button of the speech panel clears the selected file only:
        the analysis of the closed speech stays in state. */
    method CloseSpeech()
      modifies this
      ensures selectedFilename.None?
      ensures showAnalysis == old(showAnalysis) && analysisData == old(analysisData)
      ensures selectedCountry == old(selectedCountry) && selectedIdeology == old(selectedIdeology) &&
              selectedSpeechType == old(selectedSpeechType)
      ensures sortOrder == old(sortOrder)
    {
      selectedFilename := None;
    }

    /** The analysis header folds and unfolds the analysis; twice is back
        where it was. */
    method ToggleAnalysis()
      modifies this
      ensures showAnalysis == !old(showAnalysis)
      ensures selectedFilename == old(selectedFilename) && analysisData == old(analysisData)
      ensures selectedCountry == old(selectedCountry) && selectedIdeology == old(selectedIdeology) &&
              selectedSpeechType == old(selectedSpeechType)
      ensures sortOrder == old(sortOrder)
    {
      showAnalysis := !showAnalysis;
    }
  }
}
