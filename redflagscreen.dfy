/** The safety questions (src/components/screening/RedFlagScreen.jsx): a map
    from question id to answer, edited one answer at a time. */
module RedFlagScreen {
  import opened Js
  import Screening

  /** The eight question ids, in display order. */
  const QUESTION_IDS: seq<string> := [
    "trauma", "weight_loss", "fever_sweats", "night_pain",
    "bladder_bowel", "neuro_symptoms", "systemic_disease", "severe_pain"]

  /** `data.redFlags || {}`: the answers the component edits. The wizard
      passes its red-flag slice as `data`, so this reads a `redFlags` key
      inside the slice (see WiredScreenForgets). */
  function LocalFlags(data: Json): (r: Json)
    requires data.Readable()
    ensures Truthy(Get(data, "redFlags")) ==> r == Get(data, "redFlags")
    ensures !Truthy(Get(data, "redFlags")) ==> r == Obj(map[])
    ensures r.Readable()
  {
    Or(Get(data, "redFlags"), Obj(map[]))
  }

  /** handleChange: the reported answers are the old ones with only `field`
      set to `value`. */
  function HandleChange(redFlags: Json, field: string, value: Json): (r: Json)
    ensures r.Obj? && field in r.fields && r.fields[field] == value
    ensures forall k :: k != field ==> (k in r.fields <==> k in SpreadFields(redFlags))
    ensures forall k :: k != field && k in r.fields ==> r.fields[k] == SpreadFields(redFlags)[k]
  {
    Obj(SpreadFields(redFlags)[field := value])
  }

  /** `redFlags[q.id] || false`: what the switch of a question shows. */
  function Checked(redFlags: Json, id: string): (r: Json)
    requires redFlags.Readable()
    ensures !Truthy(Get(redFlags, id)) ==> r == Bool(false)
    ensures Truthy(Get(redFlags, id)) ==> r == Get(redFlags, id)
  {
    Or(Get(redFlags, id), Bool(false))
  }

  /** An unanswered question shows as off. */
  lemma UnansweredIsOff(redFlags: Json, id: string)
    requires redFlags.Obj? && id !in redFlags.fields
    ensures Checked(redFlags, id) == Bool(false)
  {
  }

  /** The warning shows iff some answer is exactly `true`. */
  predicate ShowsWarning(redFlags: Json)
    requires redFlags.Readable()
  {
    SomeValueTrue(redFlags) == Some(true)
  }

  /** The answers handleChange reports after switching a question on pass
      the any-true warning test. */
  lemma SwitchOnWarns(redFlags: Json, field: string)
    ensures ShowsWarning(HandleChange(redFlags, field, Bool(true)))
  {
    var r := HandleChange(redFlags, field, Bool(true));
    assert r.fields[field] == Bool(true);
  }

  /** On one answers map, the any-true warning test and the classifier's
      red-flag test agree: answers that warn send the patient to urgent
      assessment, and answers that do not never do. */
  lemma WarningIsUrgency(d: Screening.ScreeningData)
    requires d.redFlags.Readable()
    ensures ShowsWarning(d.redFlags) ==> Screening.DetermineRecommendedPathway(d) == Some(Screening.UrgentMedicalAssessment)
    ensures !ShowsWarning(d.redFlags) ==> Screening.DetermineRecommendedPathway(d) != Some(Screening.UrgentMedicalAssessment)
    ensures ShowsWarning(d.redFlags) <==> Screening.GenerateRecommendations(d.redFlags) == Some(Screening.URGENT_RECOMMENDATIONS)
  {
  }

  /** As wired, the screen receives the stored red-flag slice, whose keys
      are question ids: `data.redFlags` is undefined, so every switch shows
      off, the warning never shows, and an edit reports a map holding only
      the edited answer, dropping the earlier ones. */
  lemma WiredScreenForgets(slice: Json, field: string, value: Json)
    requires slice.Obj? && "redFlags" !in slice.fields
    ensures LocalFlags(slice) == Obj(map[])
    ensures forall id :: Checked(LocalFlags(slice), id) == Bool(false)
    ensures !ShowsWarning(LocalFlags(slice))
    ensures HandleChange(LocalFlags(slice), field, value) == Obj(map[field := value])
  {
  }

  /** The answers the screen evidently means to edit: the slice it is given,
      `data || {}`. */
  function SliceFlags(slice: Json): (r: Json)
    ensures Truthy(slice) ==> r == slice
    ensures !Truthy(slice) ==> r == Obj(map[])
    ensures r.Readable()
  {
    Or(slice, Obj(map[]))
  }

  /** Editing the slice itself keeps the answers: after switching `field` on
      and storing the report, that switch shows on, the warning shows, and
      every other question shows what it showed before. */
  lemma SliceScreenKeepsAnswers(slice: Json, field: string, other: string)
    requires slice.Obj? && other != field
    ensures var stored := HandleChange(SliceFlags(slice), field, Bool(true));
      && Checked(SliceFlags(stored), field) == Bool(true)
      && ShowsWarning(SliceFlags(stored))
      && Checked(SliceFlags(stored), other) == Checked(SliceFlags(slice), other)
  {
    var stored := HandleChange(SliceFlags(slice), field, Bool(true));
    assert stored.fields[field] == Bool(true);
  }
}
