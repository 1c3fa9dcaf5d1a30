/** The arithmetic of src/components/program/ProgramOverview.jsx: the
    program's week and session totals and the progress bar. */
module ProgramOverview {
  import opened Js

  /** The program fields the overview reads; absent numbers are `None`. */
  datatype ProgramInfo = ProgramInfo(durationWeeks: Option<int>, sessionsPerWeek: Option<int>, exerciseCount: Option<nat>)

  const DEFAULT_WEEKS := 8
  const DEFAULT_SESSIONS_PER_WEEK := 3
  /** The overview shows a fixed current week and completed-session count. */
  const CURRENT_WEEK := 3
  const SESSIONS_COMPLETED := 12

  /** `n || d` on an optional number: absent and 0 both take the default. */
  function OrDefault(n: Option<int>, d: int): (r: int)
    ensures n.Some? && n.value != 0 ==> r == n.value
    ensures n.None? || n.value == 0 ==> r == d
  {
    if n.Some? && n.value != 0 then n.value else d
  }

  datatype Stats = Stats(currentWeek: int, totalWeeks: int, sessionsCompleted: int, totalSessions: int)

  /** programProgress; no program gives the empty state (`None`). */
  function Overview(program: Option<ProgramInfo>): (r: Option<Stats>)
    ensures program.None? <==> r.None?
    ensures r.Some? ==> r.value.currentWeek == CURRENT_WEEK && r.value.sessionsCompleted == SESSIONS_COMPLETED
    ensures r.Some? ==> r.value.totalWeeks != 0
    ensures r.Some? ==>
      r.value.totalSessions == r.value.totalWeeks * OrDefault(program.value.sessionsPerWeek, DEFAULT_SESSIONS_PER_WEEK)
    ensures r.Some? ==> r.value.totalWeeks == OrDefault(program.value.durationWeeks, DEFAULT_WEEKS)
    ensures r.Some? && program.value.durationWeeks.None? ==> r.value.totalWeeks == DEFAULT_WEEKS
  {
    if program.None? then None
    else
      var weeks := OrDefault(program.value.durationWeeks, DEFAULT_WEEKS);
      Some(Stats(CURRENT_WEEK, weeks, SESSIONS_COMPLETED, weeks * OrDefault(program.value.sessionsPerWeek, DEFAULT_SESSIONS_PER_WEEK)))
  }

  /** `currentWeek / totalWeeks * 100`, in exact arithmetic. */
  function ProgressPercentage(s: Stats): (r: real)
    requires s.totalWeeks != 0
    ensures r * s.totalWeeks as real == 100.0 * s.currentWeek as real
  {
    100.0 * s.currentWeek as real / s.totalWeeks as real
  }

  /** A program of at least three weeks shows a bar between 0 and 100; the
      default eight weeks show 37.5. */
  lemma PercentageRange(program: ProgramInfo)
    ensures var s := Overview(Some(program)).value;
      s.totalWeeks >= CURRENT_WEEK ==> 0.0 < ProgressPercentage(s) <= 100.0
    ensures program.durationWeeks.None? ==> ProgressPercentage(Overview(Some(program)).value) == 37.5
  {
    var s := Overview(Some(program)).value;
    var r := ProgressPercentage(s);
    if s.totalWeeks >= CURRENT_WEEK {
      assert r * s.totalWeeks as real == 300.0;
      assert r > 0.0;
      assert r * s.totalWeeks as real <= 100.0 * s.totalWeeks as real;
    }
  }

  /** `exercises?.length || 0` */
  function ExerciseCount(program: ProgramInfo): (r: nat)
    ensures program.exerciseCount.Some? ==> r == program.exerciseCount.value
    ensures program.exerciseCount.None? ==> r == 0
  {
    program.exerciseCount.GetOr(0)
  }
}
