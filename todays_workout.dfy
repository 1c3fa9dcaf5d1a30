/** The decisions of src/components/program/TodaysWorkout.jsx: which
    patients see the session card, whether today's session is already
    logged, the start button and the category badge. */
module TodaysWorkout {
  import opened Js
  import opened Text
  import opened Patients
  import opened Progress

  /** Only these two care pathways follow an exercise program. */
  predicate OnProgram(patient: Option<Patient>) {
    patient.Some? && patient.value.carePathway in {Some("personalized_care"), Some("standardized_program")}
  }

  /** `iso.split('T')[0]`: the date part of an ISO timestamp. */
  function DatePart(iso: string): (r: string)
    ensures r <= iso && 'T' !in r
    ensures 'T' in iso ==> iso[|r|] == 'T'
    ensures 'T' !in iso ==> r == iso
  {
    iso[..IndexOf(iso, 'T')]
  }

  /** `sessions.some(s => s.session_date === day)` */
  function AnySessionOn(sessions: seq<ProgressRecord>, day: string): (r: bool)
    ensures r <==> exists i :: 0 <= i < |sessions| && sessions[i].sessionDate == day
  {
    if sessions == [] then false
    else if sessions[0].sessionDate == day then true
    else
      var r := AnySessionOn(sessions[1..], day);
      assert r ==> exists i :: 0 <= i < |sessions| && sessions[i].sessionDate == day by {
        if r {
          var i :| 0 <= i < |sessions[1..]| && sessions[1..][i].sessionDate == day;
          assert sessions[i + 1].sessionDate == day;
        }
      }
      assert (exists i :: 0 <= i < |sessions| && sessions[i].sessionDate == day) ==> r by {
        if exists i :: 0 <= i < |sessions| && sessions[i].sessionDate == day {
          var i :| 0 <= i < |sessions| && sessions[i].sessionDate == day;
          assert i > 0 && sessions[1..][i - 1].sessionDate == day;
        }
      }
      r
  }

  /** hasCompletedToday: some logged session carries today's date; the
      current time is passed in as an ISO timestamp. */
  function HasCompletedToday(progress: Option<seq<ProgressRecord>>, now: string): (r: bool)
    ensures r <==> progress.Some? && exists i :: 0 <= i < |progress.value| && progress.value[i].sessionDate == DatePart(now)
  {
    progress.Some? && AnySessionOn(progress.value, DatePart(now))
  }

  /** What the card shows. */
  datatype View =
    | AssessmentPrompt
    | SessionCard(completed: bool, status: string, startDisabled: bool, buttonLabel: string)

  function TodaysWorkoutView(patient: Option<Patient>, progress: Option<seq<ProgressRecord>>, now: string): (r: View)
    ensures r.AssessmentPrompt? <==> !OnProgram(patient)
    ensures r.SessionCard? ==> r.completed == HasCompletedToday(progress, now)
    ensures r.SessionCard? ==> (r.startDisabled <==> r.completed)
    ensures r.SessionCard? ==> r.status == (if r.completed then "Completed" else "Pending")
    ensures r.SessionCard? ==> r.buttonLabel == (if r.completed then "View Session Details" else "Start Session")
  {
    if !OnProgram(patient) then AssessmentPrompt
    else
      var completed := HasCompletedToday(progress, now);
      SessionCard(completed, if completed then "Completed" else "Pending", completed,
        if completed then "View Session Details" else "Start Session")
  }

  /** The letter in an exercise's category circle. */
  function CategoryLetter(category: string): (r: char)
    ensures category == "mobility" <==> r == 'M'
    ensures category == "strength" <==> r == 'S'
    ensures category != "mobility" && category != "strength" <==> r == 'F'
  {
    if category == "mobility" then 'M' else if category == "strength" then 'S' else 'F'
  }
}
