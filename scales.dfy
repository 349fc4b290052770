/** The populism-score bucket rule that MapView, Speeches and CountryPanel
    each write out as their own if-chain: thresholds 1.5, 1.0, 0.5 and 0.2,
    checked most specific first, each bucket closed at its lower bound. */
module Scales {

  /** Lower bound of buckets 1 to 4 (bucket 0 has none). */
  function Threshold(b: nat): real
    requires 1 <= b <= 4
  {
    match b
    case 1 => 0.2
    case 2 => 0.5
    case 3 => 1.0
    case 4 => 1.5
  }

  /** Bucket 4 is the most populist, bucket 0 the least. */
  function Bucket(score: real): (b: nat)
    ensures b <= 4
    ensures 1 <= b ==> Threshold(b) <= score
    ensures b < 4 ==> score < Threshold(b + 1)
  {
    if score >= 1.5 then 4
    else if score >= 1.0 then 3
    else if score >= 0.5 then 2
    else if score >= 0.2 then 1
    else 0
  }

  /** A threshold itself lies in the bucket it opens, and every score below
      it lies in a lower bucket: the buckets are closed below, open above. */
  lemma BucketsClosedBelow(b: nat, s: real)
    requires 1 <= b <= 4
    ensures Bucket(Threshold(b)) == b
    ensures s < Threshold(b) ==> Bucket(s) < b
    ensures Threshold(b) <= s ==> b <= Bucket(s)
  {
  }

  /** A higher score never lands in a lower bucket. */
  lemma BucketMonotone(s: real, t: real)
    requires s <= t
    ensures Bucket(s) <= Bucket(t)
  {
  }

  /** The Tailwind CSS default-palette values behind the class names that
      the legend and MapView's comments use. */
  const TailwindHex: map<string, string> := map[
    "bg-red-800" := "#991b1b",
    "bg-red-600" := "#dc2626",
    "bg-orange-500" := "#f97316",
    "bg-yellow-400" := "#facc15",
    "bg-green-300" := "#86efac"]
}
