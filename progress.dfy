/** The progress records (PatientProgress entries) that the statistics
    components read, newest first, and the rounded mean they all use. */
module Progress {
  import opened Js
  import Seqs

  /** One completed session as stored. Absent numeric fields are `None`. */
  datatype ProgressRecord = ProgressRecord(
    sessionDate: string, weekNumber: Option<int>, overallPainLevel: Option<int>,
    adherenceScore: Option<int>, sessionDurationMinutes: Option<int>)

  /** `session.overall_pain_level || 0` */
  function PainOrZero(r: ProgressRecord): int {
    r.overallPainLevel.GetOr(0)
  }

  /** `session.adherence_score || 0` */
  function AdherenceOrZero(r: ProgressRecord): int {
    r.adherenceScore.GetOr(0)
  }

  /** `session.session_duration_minutes || 0` */
  function DurationOrZero(r: ProgressRecord): int {
    r.sessionDurationMinutes.GetOr(0)
  }

  function Pains(p: seq<ProgressRecord>): (r: seq<int>)
    ensures |r| == |p| && forall i :: 0 <= i < |p| ==> r[i] == PainOrZero(p[i])
  {
    seq(|p|, i requires 0 <= i < |p| => PainOrZero(p[i]))
  }

  function Adherences(p: seq<ProgressRecord>): (r: seq<int>)
    ensures |r| == |p| && forall i :: 0 <= i < |p| ==> r[i] == AdherenceOrZero(p[i])
  {
    seq(|p|, i requires 0 <= i < |p| => AdherenceOrZero(p[i]))
  }

  /** `len > 0 ? Math.round(sum / len) : 0` */
  function MeanRounded(xs: seq<int>): (r: int)
    ensures xs == [] ==> r == 0
    ensures xs != [] ==> 2 * |xs| * r <= 2 * Seqs.Sum(xs) + |xs| < 2 * |xs| * r + 2 * |xs|
  {
    if xs == [] then 0 else Seqs.RoundDiv(Seqs.Sum(xs), |xs|)
  }

  /** The rounded mean stays within the range of the values (and the empty
      mean, 0, within any range holding 0). */
  lemma MeanWithin(xs: seq<int>, lo: int, hi: int)
    requires lo <= 0 <= hi
    requires forall i :: 0 <= i < |xs| ==> lo <= xs[i] <= hi
    ensures lo <= MeanRounded(xs) <= hi
  {
    if xs != [] {
      Seqs.SumBounds(xs, lo, hi);
      Seqs.RoundDivBounds(Seqs.Sum(xs), |xs|, lo, hi);
    }
  }

  /** Sessions whose adherence scores lie in 0..100 average within 0..100. */
  lemma AdherenceMeanIsPercent(p: seq<ProgressRecord>)
    requires forall i :: 0 <= i < |p| ==> 0 <= AdherenceOrZero(p[i]) <= 100
    ensures 0 <= MeanRounded(Adherences(p)) <= 100
  {
    MeanWithin(Adherences(p), 0, 100);
  }
}
