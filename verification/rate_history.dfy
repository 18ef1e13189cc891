/** The SolarWise TOU rate history card: the three-tier rate status, the recommendation
    shown under the chart, and the average rate over the history. The strings of the
    card (titles, descriptions, colours) are fixed by the tier and are not modelled;
    the tier, the variant and the percentages are. */
module RateHistory {
  import opened Options
  import opened TouTariff

  datatype Tier = Low | Moderate | High

  /** The order of the tiers, Low < Moderate < High. */
  function Rank(t: Tier): nat {
    match t
    case Low => 0
    case Moderate => 1
    case High => 2
  }

  /** `getRateStatus`: below 5 is Low, below 10 is Moderate, anything else is High. */
  function RateStatus(rate: real): (t: Tier)
    ensures t == Low <==> rate < 5.0
    ensures t == Moderate <==> 5.0 <= rate < 10.0
    ensures t == High <==> rate >= 10.0
  {
    if rate < 5.0 then Low
    else if rate < 10.0 then Moderate
    else High
  }

  /** A higher rate never gets a lower tier. */
  lemma TierMonotone(r1: real, r2: real)
    requires r1 <= r2
    ensures Rank(RateStatus(r1)) <= Rank(RateStatus(r2))
  {
  }

  datatype Variant = Default | Destructive

  /** What the recommendation alert shows: its tier (which picks the title), the signed
      difference to the optimal rate in percent, the percentage printed in the text, and
      the alert variant. */
  datatype Recommendation = Recommendation(tier: Tier, percentageDifference: real, shownPercentage: real, variant: Variant)

  /** The rate the recommendation compares against (5 per unit, whatever the source's
      comment says). */
  const OptimalRate: real := 5.0

  /** `getRecommendation`. Its own chain of comparisons picks the same tier as
      `getRateStatus`; the Low branch prints the magnitude of a negative difference. */
  function GetRecommendation(rate: real): (r: Recommendation)
    ensures r.tier == RateStatus(rate)
    ensures r.variant == Destructive <==> rate >= 10.0
    ensures r.percentageDifference * OptimalRate == (rate - OptimalRate) * 100.0
    ensures r.percentageDifference < 0.0 <==> rate < OptimalRate
    ensures r.shownPercentage >= 0.0
    ensures r.shownPercentage == r.percentageDifference || r.shownPercentage == -r.percentageDifference
    ensures r.tier == High ==> r.shownPercentage >= 100.0
  {
    var diff := (rate - OptimalRate) / OptimalRate * 100.0;
    if rate < 5.0 then Recommendation(Low, diff, if diff < 0.0 then -diff else diff, Default)
    else if rate < 10.0 then Recommendation(Moderate, diff, diff, Default)
    else Recommendation(High, diff, diff, Destructive)
  }

  /** No rate of the history is negative, checked from the latest record back. */
  predicate NoNegativeRate(h: seq<TouRecord>) {
    |h| == 0 || (h[|h| - 1].rate >= 0.0 && NoNegativeRate(h[..|h| - 1]))
  }

  /** The sum of the rates, as the `reduce` from 0 computes it. */
  function SumRates(h: seq<TouRecord>): (sum: real)
    ensures NoNegativeRate(h) ==> sum >= 0.0
  {
    if |h| == 0 then 0.0
    else
      SumRates(h[..|h| - 1]) + h[|h| - 1].rate
  }

  /** The smallest rate of a non-empty history. */
  function MinRate(h: seq<TouRecord>): (m: real)
    requires |h| > 0
    ensures exists i :: 0 <= i < |h| && h[i].rate == m
    ensures forall i :: 0 <= i < |h| ==> m <= h[i].rate
  {
    if |h| == 1 then h[0].rate
    else
      var m := MinRate(h[1..]);
      assert forall i :: 1 <= i < |h| ==> h[i] == h[1..][i - 1];
      if h[0].rate <= m then h[0].rate else m
  }

  /** The largest rate of a non-empty history. */
  function MaxRate(h: seq<TouRecord>): (m: real)
    requires |h| > 0
    ensures exists i :: 0 <= i < |h| && h[i].rate == m
    ensures forall i :: 0 <= i < |h| ==> h[i].rate <= m
  {
    if |h| == 1 then h[0].rate
    else
      var m := MaxRate(h[1..]);
      assert forall i :: 1 <= i < |h| ==> h[i] == h[1..][i - 1];
      if h[0].rate >= m then h[0].rate else m
  }

  /** A sum of rates that all lie in `[lo, hi]` lies between `n * lo` and `n * hi`. */
  lemma {:induction false} SumBounds(h: seq<TouRecord>, lo: real, hi: real)
    requires forall i :: 0 <= i < |h| ==> lo <= h[i].rate <= hi
    ensures |h| as real * lo <= SumRates(h) <= |h| as real * hi
    decreases |h|
  {
    if |h| > 0 {
      var init := h[..|h| - 1];
      assert forall i :: 0 <= i < |init| ==> init[i] == h[i];
      SumBounds(init, lo, hi);
      var n := |init| as real;
      assert SumRates(h) == SumRates(init) + h[|h| - 1].rate;
      assert |h| as real * lo == n * lo + lo && |h| as real * hi == n * hi + hi;
    }
  }

  /** `averageRate` of a non-empty history, the sum over the length, lies between the
      smallest and the largest rate. */
  function AverageRate(h: seq<TouRecord>): (avg: real)
    requires |h| > 0
    ensures MinRate(h) <= avg <= MaxRate(h)
  {
    AverageWithin(h, MinRate(h), MaxRate(h));
    SumRates(h) / (|h| as real)
  }

  /** Any bounds on all the rates bound their average. */
  lemma {:induction false} AverageWithin(h: seq<TouRecord>, lo: real, hi: real)
    requires |h| > 0
    requires forall i :: 0 <= i < |h| ==> lo <= h[i].rate <= hi
    ensures lo <= SumRates(h) / (|h| as real) <= hi
  {
    var sum, n := SumRates(h), |h| as real;
    SumBounds(h, lo, hi);
    QuotientBounds(sum, n, lo, hi);
  }

  lemma QuotientBounds(sum: real, n: real, lo: real, hi: real)
    requires n > 0.0
    requires n * lo <= sum <= n * hi
    ensures lo <= sum / n <= hi
  {
  }

  /** The numbers the card renders. */
  datatype HistoryView = HistoryView(current: real, average: real, status: Tier, recommendation: Recommendation)

  /** The card for a history: nothing for an empty history, otherwise the latest rate
      with its status and recommendation, and the average. */
  function RenderHistoryCard(h: seq<TouRecord>): (v: Option<HistoryView>)
    ensures v.None? <==> |h| == 0
    ensures v.Some? ==> v.value.current == h[|h| - 1].rate
    ensures v.Some? ==> v.value.status == v.value.recommendation.tier == RateStatus(h[|h| - 1].rate)
    ensures v.Some? ==> MinRate(h) <= v.value.average <= MaxRate(h)
  {
    if |h| == 0 then None
    else
      var last := h[|h| - 1].rate;
      Some(HistoryView(last, AverageRate(h), RateStatus(last), GetRecommendation(last)))
  }
}
