/** The guided session of src/components/exercise/SessionPlayer.jsx: a set
    and exercise cursor with rests and skips, and one progress record per
    exercise id that the handlers change in place. */
module ExerciseSessionPlayer {
  import opened Js
  import Seqs

  /** The fields of a session exercise that the player uses. */
  datatype Exercise = Exercise(id: string, sets: int, restDuration: Option<int>)

  /** Rest length when an exercise gives none (or 0). */
  const DEFAULT_REST_SECONDS: int := 60

  /** `rest_duration || 60`. */
  function RestDuration(e: Exercise): (r: int)
    ensures e.restDuration.Some? && e.restDuration.value != 0 ==> r == e.restDuration.value
    ensures e.restDuration.None? || e.restDuration == Some(0) ==> r == DEFAULT_REST_SECONDS
  {
    match e.restDuration
    case Some(d) => if d != 0 then d else DEFAULT_REST_SECONDS
    case None => DEFAULT_REST_SECONDS
  }

  /** The contents of one progress record. */
  datatype ProgressValues = ProgressValues(
    completedSets: int, painBefore: int, painAfter: int, perceivedExertion: int,
    notes: string, completed: bool, skipped: bool, skipReason: Option<string>)

  /** Every exercise starts with no sets done, exertion 5, neither completed
      nor skipped. */
  const INITIAL_PROGRESS: ProgressValues := ProgressValues(0, 0, 0, 5, "", false, false, None)

  /** A progress record; the handlers write its fields in place. */
  class ExerciseProgress {
    var completedSets: int
    var painBefore: int
    var painAfter: int
    var perceivedExertion: int
    var notes: string
    var completed: bool
    var skipped: bool
    var skipReason: Option<string>

    constructor ()
      ensures Values() == INITIAL_PROGRESS
    {
      completedSets, painBefore, painAfter, perceivedExertion := 0, 0, 0, 5;
      notes, completed, skipped, skipReason := "", false, false, None;
    }

    function Values(): ProgressValues
      reads this
    {
      ProgressValues(completedSets, painBefore, painAfter, perceivedExertion,
                     notes, completed, skipped, skipReason)
    }
  }

  /** The two per-exercise sliders. */
  datatype FeedbackField = PainAfter | PerceivedExertion

  /** What onCompleteSession receives (the session and patient ids, copied
      from the props, are left out). */
  datatype SessionResults = SessionResults(
    sessionDate: string, exercises: seq<(string, ProgressValues)>,
    actualDurationMinutes: int, adherenceScore: int,
    overallPainBefore: int, overallPainAfter: int, sessionNotes: string)

  function Ids(exercises: seq<Exercise>): (r: seq<string>)
    ensures |r| == |exercises| && forall i :: 0 <= i < |r| ==> r[i] == exercises[i].id
  {
    seq(|exercises|, i requires 0 <= i < |exercises| => exercises[i].id)
  }

  /** How many records are marked completed. */
  function CountCompleted(entries: seq<(string, ProgressValues)>): (c: nat)
    ensures c <= |entries|
  {
    if entries == [] then 0
    else (if entries[0].1.completed then 1 else 0) + CountCompleted(entries[1..])
  }

  /** calculateAdherenceScore: Math.round(completed / exercises.length * 100). */
  function AdherenceScore(completed: nat, total: nat): (r: int)
    requires total > 0
    ensures completed <= total ==> 0 <= r <= 100
    ensures completed == 0 ==> r == 0
    ensures completed == total ==> r == 100
  {
    Seqs.PercentEnds(total);
    Seqs.RoundedPercent(completed, total)
  }

  /** The records in key order, with their current contents. */
  function SnapshotOf(keys: seq<string>, progress: map<string, ExerciseProgress>): (r: seq<(string, ProgressValues)>)
    requires forall i :: 0 <= i < |keys| ==> keys[i] in progress
    reads progress.Values
    ensures |r| == |keys|
    ensures forall i :: 0 <= i < |keys| ==> r[i] == (keys[i], progress[keys[i]].Values())
  {
    if keys == [] then []
    else [(keys[0], progress[keys[0]].Values())] + SnapshotOf(keys[1..], progress)
  }

  class Player {
    const exercises: seq<Exercise>
    /** `sessionStartTime`, in milliseconds. */
    const sessionStartTime: int
    var currentExerciseIndex: int
    var currentSet: int
    var isResting: bool
    var restTimeLeft: int
    var exerciseProgress: map<string, ExerciseProgress>

    /** A non-empty exercise list, an index inside it, and one distinct
        record per exercise id. */
    ghost predicate Valid()
      reads this
    {
      |exercises| > 0
      && 0 <= currentExerciseIndex < |exercises|
      && exerciseProgress.Keys == (set i | 0 <= i < |exercises| :: exercises[i].id)
      && forall a, b :: a in exerciseProgress && b in exerciseProgress && a != b ==>
           exerciseProgress[a] != exerciseProgress[b]
    }

    /** `Object.keys(exerciseProgress)`: the ids in order of first appearance. */
    function Keys(): seq<string>
      reads this
    {
      Seqs.Dedup(Ids(exercises))
    }

    function Snapshot(): (r: seq<(string, ProgressValues)>)
      requires Valid()
      reads this, exerciseProgress.Values
      ensures |r| == |Keys()| <= |exercises|
    {
      var keys := Keys();
      assert forall i :: 0 <= i < |keys| ==> keys[i] in Ids(exercises);
      SnapshotOf(keys, exerciseProgress)
    }

    /** The adherence score over the records as they are now. */
    function CurrentAdherence(): (r: int)
      requires Valid()
      reads this, exerciseProgress.Values
      ensures 0 <= r <= 100
    {
      AdherenceScore(CountCompleted(Snapshot()), |exercises|)
    }

    /** handleSessionComplete's record, built from the records as they are now. */
    function Results(now: int, sessionDate: string): SessionResults
      requires Valid()
      reads this, exerciseProgress.Values
    {
      SessionResults(sessionDate, Snapshot(), Seqs.RoundDiv(now - sessionStartTime, 60000),
                     CurrentAdherence(), 0, 0, "")
    }

    function Current(): Exercise
      requires Valid()
      reads this
    {
      exercises[currentExerciseIndex]
    }

    function Record(id: string): ExerciseProgress
      requires id in exerciseProgress
      reads this
    {
      exerciseProgress[id]
    }

    predicate IsLastExercise()
      reads this
    {
      currentExerciseIndex == |exercises| - 1
    }

    /** isLastSet: the current set has reached the exercise's set count. */
    predicate IsLastSet()
      requires Valid()
      reads this
    {
      currentSet >= Current().sets
    }

    /** The state once mounted and the initialising effect has run: a fresh
        record per exercise id (a repeated id keeps the last one made). */
    constructor (exercises: seq<Exercise>, sessionStartTime: int)
      requires |exercises| > 0
      ensures Valid()
      ensures this.exercises == exercises && this.sessionStartTime == sessionStartTime
      ensures currentExerciseIndex == 0 && currentSet == 1 && !isResting && restTimeLeft == 0
      ensures forall id :: id in exerciseProgress ==>
        fresh(exerciseProgress[id]) && exerciseProgress[id].Values() == INITIAL_PROGRESS
    {
      this.exercises := exercises;
      this.sessionStartTime := sessionStartTime;
      currentExerciseIndex := 0;
      currentSet := 1;
      isResting := false;
      restTimeLeft := 0;
      var initialProgress: map<string, ExerciseProgress> := map[];
      var k := 0;
      while k < |exercises|
        invariant 0 <= k <= |exercises|
        invariant initialProgress.Keys == (set i | 0 <= i < k :: exercises[i].id)
        invariant forall id :: id in initialProgress ==>
          fresh(initialProgress[id]) && initialProgress[id].Values() == INITIAL_PROGRESS
        invariant forall a, b :: a in initialProgress && b in initialProgress && a != b ==>
          initialProgress[a] != initialProgress[b]
      {
        var record := new ExerciseProgress();
        initialProgress := initialProgress[exercises[k].id := record];
        k := k + 1;
      }
      exerciseProgress := initialProgress;
    }

    /** The current exercise's id appears among the snapshot's keys. */
    lemma CurrentInSnapshot()
      requires Valid()
      ensures exists i :: 0 <= i < |Keys()| && Keys()[i] == Current().id
    {
      var ids := Ids(exercises);
      assert ids[currentExerciseIndex] == Current().id;
      var keys := Keys();
      var i := Seqs.FirstIndex(keys, Current().id);
    }

    /** handleSetComplete. Before the last set: the record notes the set, a
        rest starts and the set advances. On the last set the record is
        marked completed and the cursor moves to the next exercise at set 1;
        on the last exercise the results are emitted instead. The progress
        map is copied shallowly, so the emitted results already see the
        record just marked completed. */
    method HandleSetComplete(now: int, sessionDate: string) returns (results: Option<SessionResults>)
      requires Valid()
      modifies this, exerciseProgress[exercises[currentExerciseIndex].id]
      ensures Valid()
      ensures exerciseProgress == old(exerciseProgress)
      ensures var id := old(Current()).id; var p := Record(id);
        p.completedSets == old(currentSet)
        && p.completed == (old(p.completed) || old(IsLastSet()))
        && p.skipped == old(p.skipped) && p.skipReason == old(p.skipReason)
        && p.painAfter == old(p.painAfter) && p.perceivedExertion == old(p.perceivedExertion)
      ensures var id := old(Current()).id; var p := Record(id);
        p.Values() == old(p.Values()).(completedSets := old(currentSet),
                                      completed := old(p.completed) || old(IsLastSet()))
      ensures forall id :: id in exerciseProgress && id != old(Current()).id ==>
        exerciseProgress[id].Values() == old(exerciseProgress[id].Values())
      ensures !old(IsLastSet()) ==>
        isResting && restTimeLeft == RestDuration(old(Current())) && currentSet == old(currentSet) + 1
        && currentExerciseIndex == old(currentExerciseIndex) && results == None
      ensures old(IsLastSet()) && !old(IsLastExercise()) ==>
        currentExerciseIndex == old(currentExerciseIndex) + 1 && currentSet == 1
        && isResting == old(isResting) && restTimeLeft == old(restTimeLeft) && results == None
      ensures old(IsLastSet()) && old(IsLastExercise()) ==>
        currentExerciseIndex == old(currentExerciseIndex) && currentSet == old(currentSet)
        && isResting == old(isResting) && restTimeLeft == old(restTimeLeft)
        && results == Some(Results(now, sessionDate))
    {
      var exercise := exercises[currentExerciseIndex];
      var record := exerciseProgress[exercise.id];
      record.completedSets := currentSet;
      results := None;
      if currentSet >= exercise.sets {
        record.completed := true;
        if currentExerciseIndex == |exercises| - 1 {
          results := Some(Results(now, sessionDate));
        } else {
          currentExerciseIndex := currentExerciseIndex + 1;
          currentSet := 1;
        }
      } else {
        isResting := true;
        restTimeLeft := RestDuration(exercise);
        currentSet := currentSet + 1;
      }
    }

    /** Completing the last set of the last exercise emits results in which
        that exercise is completed. */
    lemma FinalExerciseCounted(results: SessionResults, now: int, sessionDate: string)
      requires Valid() && Record(Current().id).completed
      requires results == Results(now, sessionDate)
      ensures exists i :: (0 <= i < |results.exercises|
        && results.exercises[i].0 == Current().id && results.exercises[i].1.completed)
      ensures CountCompleted(results.exercises) >= 1
    {
      CurrentInSnapshot();
      var i :| 0 <= i < |Keys()| && Keys()[i] == Current().id;
      assert results.exercises[i].1.completed;
      CountPositive(results.exercises, i);
    }

    /** handleSkipExercise: the record is marked skipped with the reason (its
        completion untouched) and the cursor moves as for a completed
        exercise; the rest state is left as it was. */
    method HandleSkipExercise(reason: string, now: int, sessionDate: string) returns (results: Option<SessionResults>)
      requires Valid()
      modifies this, exerciseProgress[exercises[currentExerciseIndex].id]
      ensures Valid()
      ensures exerciseProgress == old(exerciseProgress)
      ensures var id := old(Current()).id; var p := Record(id);
        p.skipped && p.skipReason == Some(reason)
        && p.completed == old(p.completed) && p.completedSets == old(p.completedSets)
      ensures var id := old(Current()).id; var p := Record(id);
        p.Values() == old(p.Values()).(skipped := true, skipReason := Some(reason))
      ensures forall id :: id in exerciseProgress && id != old(Current()).id ==>
        exerciseProgress[id].Values() == old(exerciseProgress[id].Values())
      ensures isResting == old(isResting) && restTimeLeft == old(restTimeLeft)
      ensures !old(IsLastExercise()) ==>
        currentExerciseIndex == old(currentExerciseIndex) + 1 && currentSet == 1 && results == None
      ensures old(IsLastExercise()) ==>
        currentExerciseIndex == old(currentExerciseIndex) && currentSet == old(currentSet)
        && results == Some(Results(now, sessionDate))
    {
      var exercise := exercises[currentExerciseIndex];
      var record := exerciseProgress[exercise.id];
      record.skipped := true;
      record.skipReason := Some(reason);
      results := None;
      if currentExerciseIndex == |exercises| - 1 {
        results := Some(Results(now, sessionDate));
      } else {
        currentExerciseIndex := currentExerciseIndex + 1;
        currentSet := 1;
      }
    }

    /** handleRestComplete: the rest ends. */
    method HandleRestComplete()
      requires Valid()
      modifies this
      ensures Valid() && !isResting && restTimeLeft == 0
      ensures currentExerciseIndex == old(currentExerciseIndex) && currentSet == old(currentSet)
      ensures exerciseProgress == old(exerciseProgress)
    {
      isResting := false;
      restTimeLeft := 0;
    }

    /** updateExerciseFeedback: one slider field of the current record. */
    method UpdateExerciseFeedback(field: FeedbackField, value: int)
      requires Valid()
      modifies exerciseProgress[exercises[currentExerciseIndex].id]
      ensures Valid()
      ensures var p := Record(Current().id);
        (field == PainAfter ==> p.Values() == old(p.Values()).(painAfter := value))
        && (field == PerceivedExertion ==> p.Values() == old(p.Values()).(perceivedExertion := value))
      ensures forall id :: id in exerciseProgress && id != Current().id ==>
        exerciseProgress[id].Values() == old(exerciseProgress[id].Values())
    {
      var record := exerciseProgress[exercises[currentExerciseIndex].id];
      if field == PainAfter {
        record.painAfter := value;
      } else {
        record.perceivedExertion := value;
      }
    }

    /** The header's Previous button: Math.max(0, index - 1). */
    method PreviousExercise()
      requires Valid()
      modifies this
      ensures Valid()
      ensures currentExerciseIndex == if old(currentExerciseIndex) > 0 then old(currentExerciseIndex) - 1 else 0
      ensures currentSet == old(currentSet) && isResting == old(isResting)
      ensures restTimeLeft == old(restTimeLeft) && exerciseProgress == old(exerciseProgress)
    {
      currentExerciseIndex := if currentExerciseIndex - 1 > 0 then currentExerciseIndex - 1 else 0;
    }

    /** The header's Next button: Math.min(n - 1, index + 1). */
    method NextExercise()
      requires Valid()
      modifies this
      ensures Valid()
      ensures currentExerciseIndex ==
        if old(currentExerciseIndex) < |exercises| - 1 then old(currentExerciseIndex) + 1 else |exercises| - 1
      ensures currentSet == old(currentSet) && isResting == old(isResting)
      ensures restTimeLeft == old(restTimeLeft) && exerciseProgress == old(exerciseProgress)
    {
      currentExerciseIndex :=
        if |exercises| - 1 < currentExerciseIndex + 1 then |exercises| - 1 else currentExerciseIndex + 1;
    }
  }

  lemma {:induction false} CountPositive(entries: seq<(string, ProgressValues)>, i: nat)
    requires i < |entries| && entries[i].1.completed
    ensures CountCompleted(entries) >= 1
  {
    if i > 0 {
      CountPositive(entries[1..], i - 1);
    }
  }
}
