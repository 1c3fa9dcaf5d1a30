/** The program session of src/components/program/SessionPlayer.jsx: the
    week's exercises, one progress entry per exercise, an exercise cursor and
    the preparation, active and complete phases. */
module ProgramSessionPlayer {
  import opened Js
  import Seqs

  datatype ProgramExercise = ProgramExercise(id: string, name: string)

  /** One entry of `week_structure`. */
  datatype Week = Week(weekNumber: int, exerciseIds: seq<string>)

  /** The first week whose number matches (`find`). */
  function FindWeek(weeks: seq<Week>, weekNumber: int): (r: Option<Week>)
    ensures r.Some? ==> r.value in weeks && r.value.weekNumber == weekNumber
    ensures r.None? <==> forall i :: 0 <= i < |weeks| ==> weeks[i].weekNumber != weekNumber
    ensures r.Some? ==> exists i :: (0 <= i < |weeks| && weeks[i] == r.value
      && forall j :: 0 <= j < i ==> weeks[j].weekNumber != weekNumber)
  {
    if weeks == [] then None
    else if weeks[0].weekNumber == weekNumber then Some(weeks[0])
    else
      var r := FindWeek(weeks[1..], weekNumber);
      assert forall i :: 1 <= i < |weeks| ==> weeks[i] == weeks[1..][i - 1];
      r
  }

  /** weekExercises: the program's exercises listed by the matching week, in
      program order, or all of them when no week matches or there is no
      week structure. */
  function WeekExercises(exercises: seq<ProgramExercise>, weekStructure: Option<seq<Week>>, weekNumber: int): seq<ProgramExercise>
  {
    var week := if weekStructure.Some? then FindWeek(weekStructure.value, weekNumber) else None;
    match week
    case None => exercises
    case Some(w) => Seqs.Filter(exercises, (e: ProgramExercise) => e.id in w.exerciseIds)
  }

  /** The week's list keeps the program order, holds only the week's ids and
      misses none of them; without a matching week it is the whole program. */
  lemma WeekExercisesSelects(exercises: seq<ProgramExercise>, weeks: seq<Week>, weekNumber: int)
    ensures WeekExercises(exercises, None, weekNumber) == exercises
    ensures FindWeek(weeks, weekNumber).None? ==> WeekExercises(exercises, Some(weeks), weekNumber) == exercises
    ensures FindWeek(weeks, weekNumber).Some? ==>
      var ids := FindWeek(weeks, weekNumber).value.exerciseIds;
      var r := WeekExercises(exercises, Some(weeks), weekNumber);
      Seqs.IsSubsequence(r, exercises)
      && (forall i :: 0 <= i < |r| ==> r[i].id in ids)
      && (forall i :: 0 <= i < |exercises| && exercises[i].id in ids ==> exercises[i] in r)
  {
    var week := FindWeek(weeks, weekNumber);
    if week.Some? {
      var keep := (e: ProgramExercise) => e.id in week.value.exerciseIds;
      Seqs.FilterIsSubsequence(exercises, keep);
      Seqs.FilterKeepsPassing(exercises, keep);
    }
  }

  datatype Phase = Preparation | Active | Complete

  /** One `sessionProgress` entry; `data` is what the exercise player reported. */
  datatype Entry = Entry(exerciseId: string, exerciseName: string, completed: bool,
                         skipped: bool, skipReason: Option<string>, data: Json)

  function InitialEntry(e: ProgramExercise): Entry {
    Entry(e.id, e.name, false, false, None, Null)
  }

  /** The initialising effect's list: one fresh entry per exercise, in order. */
  function InitialProgress(exercises: seq<ProgramExercise>): (r: seq<Entry>)
    ensures |r| == |exercises|
    ensures forall i :: 0 <= i < |r| ==> r[i] == InitialEntry(exercises[i])
  {
    seq(|exercises|, i requires 0 <= i < |exercises| => InitialEntry(exercises[i]))
  }

  function CountCompleted(entries: seq<Entry>): (c: nat)
    ensures c <= |entries|
  {
    if entries == [] then 0
    else (if entries[0].completed then 1 else 0) + CountCompleted(entries[1..])
  }

  /** `exercises_completed`: the data of the completed entries, in order. */
  function CompletedData(entries: seq<Entry>): (r: seq<Json>)
    ensures |r| == CountCompleted(entries)
  {
    if entries == [] then []
    else (if entries[0].completed then [entries[0].data] else []) + CompletedData(entries[1..])
  }

  /** The record handed to onSessionComplete (program id left out). The
      overall pain and the notes have no setter, so they keep 0 and "". */
  datatype SessionData = SessionData(
    sessionDate: string, weekNumber: int, sessionNumber: int,
    exercisesCompleted: seq<Json>, overallPainLevel: int,
    sessionDurationMinutes: int, sessionNotes: string, adherenceScore: int)

  /** handleSessionComplete's record, built from `progress`. */
  function SessionRecord(progress: seq<Entry>, total: nat, startTime: Option<int>, now: int,
                         sessionDate: string, weekNumber: int, sessionNumber: int): (r: SessionData)
    requires total > 0 && |progress| == total
    ensures r.exercisesCompleted == CompletedData(progress)
    ensures 0 <= r.adherenceScore <= 100
    ensures startTime.None? ==> r.sessionDurationMinutes == 0
    ensures CountCompleted(progress) == 0 ==> r.adherenceScore == 0 && r.exercisesCompleted == []
  {
    Seqs.PercentEnds(total);
    SessionData(sessionDate, weekNumber, sessionNumber, CompletedData(progress), 0,
                if startTime.Some? then Seqs.RoundDiv(now - startTime.value, 60000) else 0,
                "", Seqs.RoundedPercent(CountCompleted(progress), total))
  }

  class Player {
    const weekExercises: seq<ProgramExercise>
    const weekNumber: int
    const sessionNumber: int
    var currentExerciseIndex: int
    var sessionProgress: seq<Entry>
    var sessionStartTime: Option<int>
    var sessionPhase: Phase

    ghost predicate Valid()
      reads this
    {
      |weekExercises| > 0
      && 0 <= currentExerciseIndex < |weekExercises|
      && |sessionProgress| == |weekExercises|
    }

    predicate IsLastExercise()
      reads this
    {
      currentExerciseIndex == |weekExercises| - 1
    }

    /** The state once mounted and the initialising effect has run. */
    constructor (weekExercises: seq<ProgramExercise>, weekNumber: int, sessionNumber: int)
      requires |weekExercises| > 0
      ensures Valid()
      ensures this.weekExercises == weekExercises && this.weekNumber == weekNumber
      ensures this.sessionNumber == sessionNumber
      ensures currentExerciseIndex == 0 && sessionProgress == InitialProgress(weekExercises)
      ensures sessionStartTime == None && sessionPhase == Preparation
    {
      this.weekExercises := weekExercises;
      this.weekNumber := weekNumber;
      this.sessionNumber := sessionNumber;
      currentExerciseIndex := 0;
      sessionProgress := InitialProgress(weekExercises);
      sessionStartTime := None;
      sessionPhase := Preparation;
    }

    /** handleStartSession */
    method HandleStartSession(now: int)
      requires Valid()
      modifies this
      ensures Valid()
      ensures sessionStartTime == Some(now) && sessionPhase == Active
      ensures currentExerciseIndex == old(currentExerciseIndex) && sessionProgress == old(sessionProgress)
    {
      sessionStartTime := Some(now);
      sessionPhase := Active;
    }

    /** handleExerciseComplete. Only the current entry changes: it becomes
        completed with the reported data. The cursor advances, or on the last
        exercise the phase becomes complete and the record is emitted, built
        from the list as it was before this update. The updated list is what
        onProgressUpdate receives. */
    method HandleExerciseComplete(exerciseData: Json, now: int, sessionDate: string)
      returns (emitted: Option<SessionData>, progressUpdate: seq<Entry>)
      requires Valid()
      modifies this
      ensures Valid()
      ensures |sessionProgress| == |old(sessionProgress)|
      ensures var i := old(currentExerciseIndex);
        sessionProgress[i] == old(sessionProgress)[i].(completed := true, data := exerciseData)
      ensures forall j :: 0 <= j < |sessionProgress| && j != old(currentExerciseIndex) ==>
        sessionProgress[j] == old(sessionProgress)[j]
      ensures progressUpdate == sessionProgress
      ensures !old(IsLastExercise()) ==>
        currentExerciseIndex == old(currentExerciseIndex) + 1 && sessionPhase == old(sessionPhase)
        && emitted == None
      ensures old(IsLastExercise()) ==>
        currentExerciseIndex == old(currentExerciseIndex) && sessionPhase == Complete
        && emitted == Some(SessionRecord(old(sessionProgress), |weekExercises|, sessionStartTime,
                                         now, sessionDate, weekNumber, sessionNumber))
      ensures sessionStartTime == old(sessionStartTime)
    {
      var before := sessionProgress;
      var i := currentExerciseIndex;
      sessionProgress := sessionProgress[i := sessionProgress[i].(completed := true, data := exerciseData)];
      emitted := None;
      if i == |weekExercises| - 1 {
        sessionPhase := Complete;
        emitted := Some(SessionRecord(before, |weekExercises|, sessionStartTime, now, sessionDate,
                                      weekNumber, sessionNumber));
      } else {
        currentExerciseIndex := i + 1;
      }
      progressUpdate := sessionProgress;
    }

    /** handleExerciseSkip: only the current entry changes, becoming skipped
        with the reason (its completion untouched); the cursor moves as for
        a completed exercise. */
    method HandleExerciseSkip(reason: string, now: int, sessionDate: string) returns (emitted: Option<SessionData>)
      requires Valid()
      modifies this
      ensures Valid()
      ensures |sessionProgress| == |old(sessionProgress)|
      ensures var i := old(currentExerciseIndex);
        sessionProgress[i] == old(sessionProgress)[i].(skipped := true, skipReason := Some(reason))
      ensures forall j :: 0 <= j < |sessionProgress| && j != old(currentExerciseIndex) ==>
        sessionProgress[j] == old(sessionProgress)[j]
      ensures !old(IsLastExercise()) ==>
        currentExerciseIndex == old(currentExerciseIndex) + 1 && sessionPhase == old(sessionPhase)
        && emitted == None
      ensures old(IsLastExercise()) ==>
        currentExerciseIndex == old(currentExerciseIndex) && sessionPhase == Complete
        && emitted == Some(SessionRecord(old(sessionProgress), |weekExercises|, sessionStartTime,
                                         now, sessionDate, weekNumber, sessionNumber))
      ensures sessionStartTime == old(sessionStartTime)
    {
      var before := sessionProgress;
      var i := currentExerciseIndex;
      sessionProgress := sessionProgress[i := sessionProgress[i].(skipped := true, skipReason := Some(reason))];
      emitted := None;
      if i == |weekExercises| - 1 {
        sessionPhase := Complete;
        emitted := Some(SessionRecord(before, |weekExercises|, sessionStartTime, now, sessionDate,
                                      weekNumber, sessionNumber));
      } else {
        currentExerciseIndex := i + 1;
      }
    }

    /** handlePreviousExercise: back by one, a no-op at the first exercise. */
    method HandlePreviousExercise()
      requires Valid()
      modifies this
      ensures Valid()
      ensures currentExerciseIndex == if old(currentExerciseIndex) > 0 then old(currentExerciseIndex) - 1 else 0
      ensures sessionProgress == old(sessionProgress) && sessionPhase == old(sessionPhase)
      ensures sessionStartTime == old(sessionStartTime)
    {
      if currentExerciseIndex > 0 {
        currentExerciseIndex := currentExerciseIndex - 1;
      }
    }

    /** handleNextExercise: forward by one, a no-op at the last exercise. */
    method HandleNextExercise()
      requires Valid()
      modifies this
      ensures Valid()
      ensures currentExerciseIndex ==
        if old(currentExerciseIndex) < |weekExercises| - 1 then old(currentExerciseIndex) + 1
        else old(currentExerciseIndex)
      ensures sessionProgress == old(sessionProgress) && sessionPhase == old(sessionPhase)
      ensures sessionStartTime == old(sessionStartTime)
    {
      if currentExerciseIndex < |weekExercises| - 1 {
        currentExerciseIndex := currentExerciseIndex + 1;
      }
    }
  }

  /** The record emitted on the last exercise does not count that exercise:
      a single-exercise session finished by completing it reports nothing
      completed and adherence 0. */
  lemma LastCompletionNotCounted(e: ProgramExercise, start: int, now: int, date: string, week: int, session: int)
    ensures var r := SessionRecord(InitialProgress([e]), 1, Some(start), now, date, week, session);
      r.exercisesCompleted == [] && r.adherenceScore == 0
  {
    var p := InitialProgress([e]);
    assert p[1..] == [];
    assert CountCompleted(p) == 0;
  }

  /** What the list holds after a render. The initialising effect depends on
      `weekExercises`; when a week matches, that is a freshly filtered array
      on every render, so the effect runs again and resets the list. */
  function ProgressAfterRender(weekMatched: bool, weekExercises: seq<ProgramExercise>, progress: seq<Entry>): (r: seq<Entry>)
    ensures weekMatched ==> r == InitialProgress(weekExercises)
    ensures !weekMatched ==> r == progress
  {
    if weekMatched then InitialProgress(weekExercises) else progress
  }

  /** As written: with a matching week, a completion is wiped out by the
      render that follows it. */
  lemma CompletionLostOnRender(e: ProgramExercise, data: Json)
    ensures var completed := InitialProgress([e])[0 := InitialEntry(e).(completed := true, data := data)];
      completed[0].completed && !ProgressAfterRender(true, [e], completed)[0].completed
  {
  }
}
