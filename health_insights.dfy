/** The insight cards of src/components/dashboard/HealthInsights.jsx. */
module HealthInsights {
  import opened Js
  import Seqs
  import opened Progress

  /** The screening fields the rules read: the pain level of each recorded
      area (`None` where an area has none) and the risk level. */
  datatype ScreeningSummary = ScreeningSummary(painAreas: Option<seq<Option<int>>>, riskLevel: Option<string>)

  datatype Insight =
    | PainImprovement(initialPain: int, latestPain: int)
    | ExcellentConsistency(percent: int)
    | ConsistencyOpportunity
    | LowRiskProfile
    | GettingStarted

  /** Insights appear in the order the rules run. */
  function Rank(i: Insight): nat {
    match i
    case PainImprovement(_, _) => 0
    case ExcellentConsistency(_) => 1
    case ConsistencyOpportunity => 1
    case LowRiskProfile => 2
    case GettingStarted => 3
  }

  /** `progressData[0]?.overall_pain_level` */
  function LatestPain(progress: seq<ProgressRecord>): Option<int> {
    if progress == [] then None else progress[0].overallPainLevel
  }

  /** `screeningData.pain_areas?.[0]?.pain_level` */
  function InitialPain(s: ScreeningSummary): Option<int> {
    match s.painAreas
    case None => None
    case Some(areas) => if areas == [] then None else areas[0]
  }

  /** Both levels truthy (present and non-zero) and the latest lower. */
  predicate PainImproved(s: ScreeningSummary, progress: seq<ProgressRecord>) {
    var latest, initial := LatestPain(progress), InitialPain(s);
    latest.Some? && latest.value != 0 && initial.Some? && initial.value != 0
    && latest.value < initial.value
  }

  /** Sessions in the recent window: the first seven. */
  function RecentCount(progress: seq<ProgressRecord>): nat {
    if |progress| < 7 then |progress| else 7
  }

  function RecentSum(progress: seq<ProgressRecord>): int {
    Seqs.Sum(Adherences(Seqs.Take(progress, 7)))
  }

  /** recentAdherence >= 80; an empty window divides 0 by 0, giving NaN,
      which is neither above nor below a threshold. */
  predicate RecentAtLeast(progress: seq<ProgressRecord>, threshold: int) {
    RecentCount(progress) > 0 && RecentSum(progress) >= threshold * RecentCount(progress)
  }

  predicate RecentBelow(progress: seq<ProgressRecord>, threshold: int) {
    RecentCount(progress) > 0 && RecentSum(progress) < threshold * RecentCount(progress)
  }

  /** The pain rule: an improvement from the first screened area's level
      to the newest session's level. */
  function PainInsight(s: ScreeningSummary, progress: seq<ProgressRecord>): (r: Option<Insight>)
    ensures r.Some? <==> PainImproved(s, progress)
    ensures r.Some? ==> r.value == PainImprovement(InitialPain(s).value, LatestPain(progress).value)
  {
    if PainImproved(s, progress) then
      Some(PainImprovement(InitialPain(s).value, LatestPain(progress).value))
    else None
  }

  /** The adherence rule: at least 80 is excellent, below 60 an opportunity,
      in between (or no session) nothing. */
  function AdherenceInsight(progress: seq<ProgressRecord>): (r: Option<Insight>)
    ensures r == Some(ConsistencyOpportunity) <==> RecentBelow(progress, 60)
    ensures (r.Some? && r.value.ExcellentConsistency?) <==> RecentAtLeast(progress, 80)
    ensures r.Some? && r.value.ExcellentConsistency? ==>
      r.value.percent == Seqs.RoundDiv(RecentSum(progress), RecentCount(progress))
    ensures r.None? <==> !RecentAtLeast(progress, 80) && !RecentBelow(progress, 60)
  {
    var count, sum := RecentCount(progress), RecentSum(progress);
    if count > 0 && sum >= 80 * count then Some(ExcellentConsistency(Seqs.RoundDiv(sum, count)))
    else if count > 0 && sum < 60 * count then Some(ConsistencyOpportunity)
    else None
  }

  /** The risk rule. */
  function RiskInsight(s: ScreeningSummary): (r: Option<Insight>)
    ensures r.Some? <==> s.riskLevel == Some("low")
    ensures r.Some? ==> r.value == LowRiskProfile
  {
    if s.riskLevel == Some("low") then Some(LowRiskProfile) else None
  }

  function Listed(o: Option<Insight>): seq<Insight> {
    if o.Some? then [o.value] else []
  }

  /** The insights the rules yield, in rule order, with the fallback. */
  function Insights(screening: Option<ScreeningSummary>, progress: seq<ProgressRecord>): seq<Insight> {
    var found := if screening.None? then []
      else Listed(PainInsight(screening.value, progress)) + Listed(AdherenceInsight(progress))
           + Listed(RiskInsight(screening.value));
    if found == [] then [GettingStarted] else found
  }

  /** getInsights: pushes, rule by rule, the pain, adherence and risk
      insights, falls back to "Getting Started" when none applies, and keeps
      at most three. */
  method GetInsights(screening: Option<ScreeningSummary>, progress: seq<ProgressRecord>) returns (insights: seq<Insight>)
    ensures insights == Insights(screening, progress)
  {
    insights := [];
    if screening.Some? {
      var s := screening.value;
      var latest, initial := LatestPain(progress), InitialPain(s);
      if latest.Some? && latest.value != 0 && initial.Some? && initial.value != 0 && latest.value < initial.value {
        insights := insights + [PainImprovement(initial.value, latest.value)];
      }
      assert insights == Listed(PainInsight(s, progress));
      var count := RecentCount(progress);
      var sum := RecentSum(progress);
      ghost var before := insights;
      if count > 0 && sum >= 80 * count {
        insights := insights + [ExcellentConsistency(Seqs.RoundDiv(sum, count))];
      } else if count > 0 && sum < 60 * count {
        insights := insights + [ConsistencyOpportunity];
      }
      assert insights == before + Listed(AdherenceInsight(progress));
      before := insights;
      if s.riskLevel == Some("low") {
        insights := insights + [LowRiskProfile];
      }
      assert insights == before + Listed(RiskInsight(s));
    }
    if |insights| == 0 {
      insights := insights + [GettingStarted];
    }
    assert Seqs.Take(insights, 3) == insights;
    insights := Seqs.Take(insights, 3);
  }

  /** Between one and three insights, in rule order; without screening data
      exactly "Getting Started", which otherwise appears iff no rule fires. */
  lemma InsightsShape(screening: Option<ScreeningSummary>, progress: seq<ProgressRecord>)
    ensures var r := Insights(screening, progress);
      1 <= |r| <= 3 && forall i, j :: 0 <= i < j < |r| ==> Rank(r[i]) < Rank(r[j])
    ensures screening.None? ==> Insights(screening, progress) == [GettingStarted]
    ensures GettingStarted in Insights(screening, progress) <==>
      screening.None? || (PainInsight(screening.value, progress).None?
        && AdherenceInsight(progress).None? && RiskInsight(screening.value).None?)
  {
    if screening.Some? {
      var s := screening.value;
      var a, b, c := Listed(PainInsight(s, progress)), Listed(AdherenceInsight(progress)), Listed(RiskInsight(s));
      assert forall x :: x in a ==> Rank(x) == 0;
      assert forall x :: x in b ==> Rank(x) == 1;
      assert forall x :: x in c ==> Rank(x) == 2;
    }
  }

  /** The excellent-consistency percentage is the rounded recent mean, and
      with adherence scores in 0..100 it lies in 80..100. */
  lemma ExcellentPercentInRange(progress: seq<ProgressRecord>)
    requires RecentAtLeast(progress, 80)
    requires forall k :: 0 <= k < |progress| ==> 0 <= AdherenceOrZero(progress[k]) <= 100
    ensures 80 <= Seqs.RoundDiv(RecentSum(progress), RecentCount(progress)) <= 100
  {
    var recent := Adherences(Seqs.Take(progress, 7));
    Seqs.SumBounds(recent, 0, 100);
    Seqs.RoundDivBounds(RecentSum(progress), RecentCount(progress), 80, 100);
  }
}
