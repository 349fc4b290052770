/** The country side panel (frontend-react/src/components/CountryPanel.tsx):
    the score bars of a timeline card and the legend placed beside the map. */
module CountryPanel {
  import opened Optional
  import opened Types
  import opened Scales
  import opened Seqs
  import MapView
  import Speeches

  const BarPalette: seq<string> := ["bg-green-300", "bg-yellow-400", "bg-orange-400", "bg-red-500", "bg-red-700"]

  /** `getScoreColor`: the shared bucket rule with the panel's own classes. */
  function ScoreColor(score: real): (c: string)
    ensures c == BarPalette[Bucket(score)]
  {
    if score >= 1.5 then "bg-red-700"
    else if score >= 1.0 then "bg-red-500"
    else if score >= 0.5 then "bg-orange-400"
    else if score >= 0.2 then "bg-yellow-400"
    else "bg-green-300"
  }

  function Max(a: real, b: real): real {
    if a >= b then a else b
  }

  /** One drawn bar: its height in percent of the track and its colour. */
  datatype Bar = Bar(caption: string, score: real, heightPercent: real, colorClass: string)

  /** `ScoreBar`: nothing for a missing score; otherwise a bar whose height
      is the score as a share of 2.0, raised to 5% so that it stays visible. */
  function ScoreBar(score: Option<real>, caption: string): (b: Option<Bar>)
    ensures score.None? <==> b.None?
    ensures b.Some? ==> b.value.caption == caption && b.value.score == score.value
    ensures b.Some? ==> b.value.colorClass == ScoreColor(score.value)
    ensures b.Some? ==> 5.0 <= b.value.heightPercent
    ensures b.Some? && score.value >= 0.1 ==> b.value.heightPercent == 50.0 * score.value
    ensures b.Some? && score.value <= 0.1 ==> b.value.heightPercent == 5.0
  {
    match score
    case None => None
    case Some(s) => Some(Bar(caption, s, Max((s / 2.0) * 100.0, 5.0), ScoreColor(s)))
  }

  /** The height is not capped: a score above 2.0 overflows the track. */
  lemma BarNotCappedAbove()
    ensures ScoreBar(Some(3.0), "Tot").value.heightPercent == 150.0
  {
  }

  /** Scores within the scale's 0.0 to 2.0 range fill at most the track, and a
      higher score never draws a lower bar. */
  lemma BarHeightBounds(s: real, t: real)
    requires s <= t
    ensures ScoreBar(Some(s), "").value.heightPercent <= ScoreBar(Some(t), "").value.heightPercent
    ensures t <= 2.0 ==> ScoreBar(Some(t), "").value.heightPercent <= 100.0
  {
  }

  /** A labelled score of a timeline card, before the null-score filter. */
  datatype LabelledScore = LabelledScore(score: Option<real>, caption: string)

  predicate HasScore(x: LabelledScore) {
    x.score.Some?
  }

  /** The five candidate scores of a card, in their display order. */
  function CardCandidates(item: TimelineItem): seq<LabelledScore> {
    [LabelledScore(Some(item.totalPopulism), "Tot"),
     LabelledScore(item.campaign, "Cmp"),
     LabelledScore(item.famous, "Fam"),
     LabelledScore(item.international, "Intl"),
     LabelledScore(item.ribbon, "Rib")]
  }

  /** `TimelineItemCard`'s `scores`: the candidates whose score is present. */
  function CardScores(item: TimelineItem): (r: seq<LabelledScore>)
    ensures 1 <= |r| <= 5
    ensures r[0] == LabelledScore(Some(item.totalPopulism), "Tot")
    ensures forall i :: 0 <= i < |r| ==> HasScore(r[i])
    ensures forall x :: x in r <==> x in CardCandidates(item) && HasScore(x)
  {
    var c := CardCandidates(item);
    assert HasScore(c[0]);
    assert Filter(c, HasScore) == [c[0]] + Filter(c[1..], HasScore);
    Filter(c, HasScore)
  }

  /** The bars of a card: one per present score, in display order, so the
      card's bars keep the order of the candidates. */
  function CardBars(item: TimelineItem): (bars: seq<Bar>)
    ensures |bars| == |CardScores(item)|
    ensures forall i :: 0 <= i < |bars| ==>
      Some(bars[i]) == ScoreBar(CardScores(item)[i].score, CardScores(item)[i].caption)
  {
    var scores := CardScores(item);
    seq(|scores|, i requires 0 <= i < |scores| => ScoreBar(scores[i].score, scores[i].caption).value)
  }

  lemma {:induction false} CardScoresInOrder(item: TimelineItem)
    ensures IsSubsequence(CardScores(item), CardCandidates(item))
  {
    FilterIsSubsequence(CardCandidates(item), HasScore);
  }

  /** A card with all four speech-type scores shows five bars. */
  lemma FullCardShowsFiveBars(item: TimelineItem)
    requires item.campaign.Some? && item.famous.Some? && item.international.Some? && item.ribbon.Some?
    ensures CardScores(item) == CardCandidates(item)
  {
    var candidates := CardCandidates(item);
    assert forall i :: 0 <= i < |candidates| ==> HasScore(candidates[i]) by {
      assert HasScore(candidates[0]) && HasScore(candidates[1]) && HasScore(candidates[2]);
      assert HasScore(candidates[3]) && HasScore(candidates[4]);
    }
    FilterKeepsAll(candidates, HasScore);
  }

  // ---------------------------------------------------------------------
  // Legend
  // ---------------------------------------------------------------------

  datatype Swatch = Swatch(colorClass: string, caption: string)

  /** A row of the intensity legend and the score range its label names. */
  datatype LegendRow = LegendRow(colorClass: string, caption: string, low: real, high: real)

  datatype Legend = IdeologyLegend(swatches: seq<Swatch>) | BucketLegend(rows: seq<LegendRow>)

  const IdeologySwatches: seq<Swatch> :=
    [Swatch("bg-blue-500", "Left"), Swatch("bg-emerald-500", "Ctr"), Swatch("bg-red-500", "Right")]

  const BucketRows: seq<LegendRow> := [
    LegendRow("bg-red-800", "1.5-2.0", 1.5, 2.0),
    LegendRow("bg-red-600", "1.0-1.5", 1.0, 1.5),
    LegendRow("bg-orange-500", "0.5-1.0", 0.5, 1.0),
    LegendRow("bg-yellow-400", "0.2-0.5", 0.2, 0.5),
    LegendRow("bg-green-300", "0.0-0.2", 0.0, 0.2)]

  /** The legend card: swatches plus a shade bar when colouring by ideology,
      the five bucket rows otherwise. The prop is `None` when the parent does
      not pass it, and JavaScript treats that as false. */
  function LegendFor(colorByIdeology: Option<bool>): (l: Legend)
    ensures l.IdeologyLegend? <==> colorByIdeology == Some(true)
    ensures l.IdeologyLegend? ==> l.swatches == IdeologySwatches
    ensures l.BucketLegend? ==> l.rows == BucketRows
  {
    if colorByIdeology == Some(true) then IdeologyLegend(IdeologySwatches) else BucketLegend(BucketRows)
  }

  /** Every legend row, read top to bottom, is the bucket 4 - k of the
      shared rule: its lower bound lies in that bucket, its upper bound opens
      the next one, and its colour is the one the map paints that bucket. */
  lemma {:induction false} LegendMatchesMap(k: nat)
    requires k < |BucketRows|
    ensures Bucket(BucketRows[k].low) == 4 - k
    ensures k > 0 ==> BucketRows[k].high == Threshold(5 - k)
    ensures BucketRows[k].colorClass in TailwindHex
    ensures MapView.PopulismColor(Some(BucketRows[k].low)) == MapView.Hex(TailwindHex[BucketRows[k].colorClass])
  {
    var row := BucketRows[k];
    assert MapView.PopulismPalette[4 - k] == TailwindHex[row.colorClass] by {
      if k == 0 {} else if k == 1 {} else if k == 2 {} else if k == 3 {} else {}
    }
  }

  /** As the application wires the panel, `colorByIdeology` is never passed,
      so the panel always shows the bucket legend, even while the map is
      coloured by ideology. */
  lemma LegendAsWired(mapColorByIdeology: bool)
    ensures LegendFor(None) == BucketLegend(BucketRows)
    ensures mapColorByIdeology ==> LegendFor(None).IdeologyLegend? != mapColorByIdeology
  {
  }

  /** The ideology swatches use the speech explorer's dot colours. */
  lemma SwatchesMatchSpeechDots()
    ensures IdeologySwatches[0].colorClass == Speeches.IdeologyDotColor(Some(-1))
    ensures IdeologySwatches[1].colorClass == Speeches.IdeologyDotColor(Some(0))
    ensures IdeologySwatches[2].colorClass == Speeches.IdeologyDotColor(Some(1))
  {
  }
}
