/** The statistics of src/components/program/ProgressTracking.jsx: chart
    points for the ten newest sessions, trends between the last two points,
    rounded averages and the day streak. */
module ProgressTracking {
  import opened Js
  import opened Text
  import Seqs
  import opened Progress

  /** Sessions shown on the charts. */
  const CHART_SESSIONS: nat := 10

  /** One chart point (the locale-formatted date is left out). */
  datatype ChartPoint = ChartPoint(session: string, pain: int, adherence: int, duration: int)

  function Point(r: ProgressRecord, index: nat): ChartPoint {
    ChartPoint("S" + NatToString(index + 1), PainOrZero(r), AdherenceOrZero(r), DurationOrZero(r))
  }

  /** processProgressData: the ten newest sessions, oldest first, labelled
      S1, S2, ... with absent values read as 0. */
  function ChartData(progress: seq<ProgressRecord>): (r: seq<ChartPoint>)
    ensures |r| == if |progress| < CHART_SESSIONS then |progress| else CHART_SESSIONS
    ensures forall i :: 0 <= i < |r| ==> r[i] == Point(progress[|r| - 1 - i], i)
  {
    var recent := Seqs.Reverse(Seqs.Take(progress, CHART_SESSIONS));
    seq(|recent|, i requires 0 <= i < |recent| => Point(recent[i], i))
  }

  /** Chart labels are distinct: "S" followed by the position from 1. */
  lemma ChartLabelsDistinct(progress: seq<ProgressRecord>, i: nat, j: nat)
    requires i < j < |ChartData(progress)|
    ensures ChartData(progress)[i].session != ChartData(progress)[j].session
  {
    var a, b := NatToString(i + 1), NatToString(j + 1);
    assert ("S" + a)[1..] == a && ("S" + b)[1..] == b;
  }

  datatype Metric = PainMetric | AdherenceMetric | DurationMetric

  function Value(p: ChartPoint, m: Metric): int {
    match m
    case PainMetric => p.pain
    case AdherenceMetric => p.adherence
    case DurationMetric => p.duration
  }

  datatype Trend = Improving | Concerning | Declining | Stable

  /** getTrend: the last chart point against the one before. Lower pain is
      better; higher adherence and duration are better. */
  function GetTrend(chart: seq<ChartPoint>, m: Metric): (r: Option<Trend>)
    ensures r.None? <==> |chart| < 2
    ensures |chart| >= 2 ==>
      var latest, previous := Value(chart[|chart| - 1], m), Value(chart[|chart| - 2], m);
      (r == Some(Stable) <==> latest == previous)
      && (m == PainMetric ==>
            (r == Some(Improving) <==> latest < previous) && (r == Some(Concerning) <==> latest > previous))
      && (m != PainMetric ==>
            (r == Some(Improving) <==> latest > previous) && (r == Some(Declining) <==> latest < previous))
  {
    if |chart| < 2 then None
    else
      var latest, previous := Value(chart[|chart| - 1], m), Value(chart[|chart| - 2], m);
      if m == PainMetric then
        if latest < previous then Some(Improving)
        else if latest > previous then Some(Concerning)
        else Some(Stable)
      else
        if latest > previous then Some(Improving)
        else if latest < previous then Some(Declining)
        else Some(Stable)
  }

  /** Since the chart is oldest first, the trend compares the newest session
      with the one before it. */
  lemma TrendComparesNewest(progress: seq<ProgressRecord>)
    requires |progress| >= 2
    ensures GetTrend(ChartData(progress), PainMetric) == Some(Improving)
      <==> PainOrZero(progress[0]) < PainOrZero(progress[1])
    ensures GetTrend(ChartData(progress), AdherenceMetric) == Some(Improving)
      <==> AdherenceOrZero(progress[0]) > AdherenceOrZero(progress[1])
  {
    var chart := ChartData(progress);
    assert chart[|chart| - 1] == Point(progress[0], |chart| - 1);
    assert chart[|chart| - 2] == Point(progress[1], |chart| - 2);
  }

  /** averagePain in tenths: Math.round(sum / len * 10), shown divided by 10;
      0 without sessions. The shown value is the mean pain rounded to one
      decimal: r / 10 lies within half a tenth of sum / len. */
  function AveragePainTenths(progress: seq<ProgressRecord>): (r: int)
    ensures progress == [] ==> r == 0
    ensures progress != [] ==>
      2 * |progress| * r <= 20 * Seqs.Sum(Pains(progress)) + |progress| < 2 * |progress| * r + 2 * |progress|
  {
    if progress == [] then 0 else Seqs.RoundDiv(10 * Seqs.Sum(Pains(progress)), |progress|)
  }

  /** With pain levels on the 0..10 scale, the average lies between 0.0 and 10.0. */
  lemma AveragePainOnScale(progress: seq<ProgressRecord>)
    requires forall i :: 0 <= i < |progress| ==> 0 <= PainOrZero(progress[i]) <= 10
    ensures 0 <= AveragePainTenths(progress) <= 100
  {
    if progress != [] {
      var pains := Pains(progress);
      Seqs.SumBounds(pains, 0, 10);
      Seqs.MulMonotone(10, Seqs.Sum(pains), 10 * |progress|);
      Seqs.RoundDivBounds(10 * Seqs.Sum(pains), |progress|, 0, 100);
    }
  }

  /** averageAdherence */
  function AverageAdherence(progress: seq<ProgressRecord>): int {
    MeanRounded(Adherences(progress))
  }

  /** calculateStreak, given for each session how many whole days before
      today it took place (`None` for a date that does not parse, whose
      difference is NaN): counts the leading sessions that lie exactly
      0, 1, 2, ... days back, and stops at the first that does not. */
  method CalculateStreak(daysAgo: seq<Option<int>>) returns (streak: nat)
    ensures streak <= |daysAgo|
    ensures forall i :: 0 <= i < streak ==> daysAgo[i] == Some(i)
    ensures streak < |daysAgo| ==> daysAgo[streak] != Some(streak)
  {
    streak := 0;
    if |daysAgo| == 0 {
      return;
    }
    var i := 0;
    while i < |daysAgo|
      invariant 0 <= i <= |daysAgo| && streak == i
      invariant forall k :: 0 <= k < streak ==> daysAgo[k] == Some(k)
    {
      if daysAgo[i] == Some(streak) {
        streak := streak + 1;
      } else {
        break;
      }
      i := i + 1;
    }
  }
}
