/** The duration estimate of src/components/exercise/SessionPreparation.jsx. */
module SessionPreparation {
  import opened Js
  import opened Seqs

  /** The fields of a session exercise the estimate reads. */
  datatype PrepExercise = PrepExercise(sets: int, restDuration: int)

  /** Seconds one exercise takes: two per set plus its rest after each set. */
  function ExerciseSeconds(ex: PrepExercise): int {
    ex.sets * 2 + ex.restDuration * ex.sets
  }

  function Seconds(exercises: seq<PrepExercise>): (r: seq<int>)
    ensures |r| == |exercises| && forall i :: 0 <= i < |r| ==> r[i] == ExerciseSeconds(exercises[i])
  {
    seq(|exercises|, i requires 0 <= i < |exercises| => ExerciseSeconds(exercises[i]))
  }

  /** estimatedDuration: an explicit non-zero estimate, else the total
      seconds over 60. */
  function EstimatedDuration(explicit: Option<int>, exercises: seq<PrepExercise>): (r: real)
    ensures explicit.Some? && explicit.value != 0 ==> r == explicit.value as real
    ensures explicit.None? || explicit.value == 0 ==> r * 60.0 == Sum(Seconds(exercises)) as real
  {
    if explicit.Some? && explicit.value != 0 then explicit.value as real
    else Sum(Seconds(exercises)) as real / 60.0
  }

  /** `Math.round(estimatedDuration)`: the nearest whole minute, halves
      rounding up. */
  function DisplayedMinutes(explicit: Option<int>, exercises: seq<PrepExercise>): (r: int)
    ensures r as real - 0.5 <= EstimatedDuration(explicit, exercises) < r as real + 0.5
  {
    if explicit.Some? && explicit.value != 0 then explicit.value
    else
      var total := Sum(Seconds(exercises));
      var r := RoundDiv(total, 60);
      RoundingWithinHalf(total, r);
      r
  }

  lemma RoundingWithinHalf(total: int, r: int)
    requires 120 * r <= 2 * total + 60 < 120 * r + 120
    ensures r as real - 0.5 <= total as real / 60.0 < r as real + 0.5
  {
    var t := total as real / 60.0;
    assert t * 60.0 == total as real;
    assert 120.0 * r as real <= 2.0 * total as real + 60.0;
    assert 2.0 * total as real + 60.0 < 120.0 * r as real + 120.0;
  }

  /** No explicit estimate and no exercises: zero minutes. */
  lemma EmptySessionTakesNoTime(explicit: Option<int>)
    requires explicit.None? || explicit.value == 0
    ensures EstimatedDuration(explicit, []) == 0.0 && DisplayedMinutes(explicit, []) == 0
  {
    assert Seconds([]) == [];
  }
}
