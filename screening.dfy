/** The screening wizard (src/pages/Screening.jsx): a step cursor over 1..7,
    six per-step data slices, the submission that classifies the answers and
    records them, and the pure triage rules. */
module Screening {
  import opened Js

  /** Step 7 shows the results; steps 1..6 collect answers. */
  const RESULTS_STEP: int := 7

  /** The six slices of `screeningData`, one per answering step. */
  datatype Slice = PersonalInfo | Symptoms | PainAreas | Functional | Scales | RedFlags

  datatype ScreeningData = ScreeningData(
    personalInfo: Json, symptoms: Json, painAreas: Json,
    functional: Json, scales: Json, redFlags: Json)
  {
    function Get(k: Slice): Json {
      match k
      case PersonalInfo => personalInfo
      case Symptoms => symptoms
      case PainAreas => painAreas
      case Functional => functional
      case Scales => scales
      case RedFlags => redFlags
    }

    /** `{...prev, [stepName]: stepData}`: the slice `k` replaced wholesale. */
    function With(k: Slice, v: Json): (r: ScreeningData)
      ensures r.Get(k) == v
      ensures forall j :: j != k ==> r.Get(j) == Get(j)
    {
      match k
      case PersonalInfo => this.(personalInfo := v)
      case Symptoms => this.(symptoms := v)
      case PainAreas => this.(painAreas := v)
      case Functional => this.(functional := v)
      case Scales => this.(scales := v)
      case RedFlags => this.(redFlags := v)
    }
  }

  /** The initial state: empty objects, and an empty list of pain areas. */
  const INITIAL_DATA: ScreeningData :=
    ScreeningData(Obj(map[]), Obj(map[]), Arr([]), Obj(map[]), Obj(map[]), Obj(map[]))

  datatype Pathway = UrgentMedicalAssessment | PersonalizedCare | StandardizedProgram | SelfManagement
  datatype RiskLevel = Urgent | High | Medium | Low

  function PathwayName(p: Pathway): string {
    match p
    case UrgentMedicalAssessment => "urgent_medical_assessment"
    case PersonalizedCare => "personalized_care"
    case StandardizedProgram => "standardized_program"
    case SelfManagement => "self_management"
  }

  datatype Results = Results(
    recommendedPathway: Pathway, riskLevel: RiskLevel,
    summary: string, recommendations: seq<string>)

  /** `area.pain_level_worst` for each area; `None` when an area is null or
      undefined (reading a property of it throws). */
  function WorstValues(areas: seq<Json>): (r: Option<seq<Number>>)
    ensures r.None? <==> exists i :: 0 <= i < |areas| && !areas[i].Readable()
    ensures r.Some? ==> |r.value| == |areas|
    ensures r.Some? ==> forall i :: 0 <= i < |areas| ==> r.value[i] == ToNumber(Get(areas[i], "pain_level_worst"))
  {
    if areas == [] then Some([])
    else if !areas[0].Readable() then None
    else
      match WorstValues(areas[1..])
      case None => None
      case Some(rest) =>
        Some([ToNumber(Get(areas[0], "pain_level_worst"))] + rest)
  }

  /** `Math.max(...painAreas.map(area => area.pain_level_worst))`. `None` is a
      TypeError: the slice is not an array (so has no `map`), or an area is
      null. The `|| [0]` fallback never applies, since an array is truthy. */
  function WorstPain(painAreas: Json): Option<Number> {
    if !painAreas.Arr? then None
    else
      match WorstValues(painAreas.items)
      case None => None
      case Some(values) => Some(Max(values))
  }

  /** determineRecommendedPathway; `None` when it throws. */
  function DetermineRecommendedPathway(data: ScreeningData): Option<Pathway> {
    match SomeValueTrue(data.redFlags)
    case None => None
    case Some(flagged) =>
      if flagged then Some(UrgentMedicalAssessment)
      else
        match WorstPain(data.painAreas)
        case None => None
        case Some(worst) =>
          if AtLeast(worst, 7) then Some(PersonalizedCare)
          else if AtLeast(worst, 4) then Some(StandardizedProgram)
          else Some(SelfManagement)
  }

  /** determineRiskLevel; its thresholds (8 and 5) differ from the pathway's. */
  function DetermineRiskLevel(data: ScreeningData): Option<RiskLevel> {
    match SomeValueTrue(data.redFlags)
    case None => None
    case Some(flagged) =>
      if flagged then Some(Urgent)
      else
        match WorstPain(data.painAreas)
        case None => None
        case Some(worst) =>
          if AtLeast(worst, 8) then Some(High)
          else if AtLeast(worst, 5) then Some(Medium)
          else Some(Low)
  }

  /** The pathway a name stands for, if any. */
  function PathwayFromName(name: string): (r: Option<Pathway>)
    ensures r.Some? ==> PathwayName(r.value) == name
    ensures forall p :: name == PathwayName(p) ==> r == Some(p)
  {
    if name == "urgent_medical_assessment" then Some(UrgentMedicalAssessment)
    else if name == "personalized_care" then Some(PersonalizedCare)
    else if name == "standardized_program" then Some(StandardizedProgram)
    else if name == "self_management" then Some(SelfManagement)
    else None
  }

  function Summary(p: Pathway): string {
    match p
    case UrgentMedicalAssessment =>
      "Your answers suggest that you should seek an urgent medical assessment from a doctor or hospital to rule out any serious conditions."
    case PersonalizedCare =>
      "You would benefit most from a personalized physiotherapy program, tailored specifically to your unique symptoms, goals, and lifestyle."
    case StandardizedProgram =>
      "A structured, evidence-based exercise program would be a great starting point to manage your condition and improve your function."
    case SelfManagement =>
      "Your symptoms appear manageable with self-care. We recommend our educational resources and gentle exercise guides."
  }

  /** generateResultsSummary: a fixed text per known pathway name, else "". */
  function GenerateResultsSummary(recommendedPathway: string): (r: string)
    ensures (forall p :: recommendedPathway != PathwayName(p)) ==> r == ""
    ensures forall p :: recommendedPathway == PathwayName(p) ==> r == Summary(p)
  {
    match PathwayFromName(recommendedPathway)
    case None => ""
    case Some(p) => Summary(p)
  }

  const URGENT_RECOMMENDATIONS: seq<string> := [
    "Seek immediate consultation with a doctor or go to an emergency department.",
    "Do not begin an exercise program until cleared by a medical professional.",
    "Bring a summary of these results to your appointment."]

  const ROUTINE_RECOMMENDATIONS: seq<string> := [
    "Begin with gentle movement and activity modification as tolerated.",
    "Focus on understanding your pain triggers and what brings relief.",
    "Gradually increase your activity levels within a comfortable range."]

  /** generateRecommendations: one of two fixed lists, chosen by whether some
      red-flag answer is exactly `true`; `None` when the answers are null. */
  function GenerateRecommendations(redFlags: Json): (r: Option<seq<string>>)
    ensures r.None? <==> !redFlags.Readable()
    ensures r.Some? ==> |r.value| == 3
    ensures r == Some(URGENT_RECOMMENDATIONS) <==> SomeValueTrue(redFlags) == Some(true)
  {
    match SomeValueTrue(redFlags)
    case None => None
    case Some(flagged) =>
      if flagged then Some(URGENT_RECOMMENDATIONS) else Some(ROUTINE_RECOMMENDATIONS)
  }

  /** The results a successful submission stores. */
  function ComputeResults(data: ScreeningData): Option<Results> {
    match (DetermineRecommendedPathway(data), DetermineRiskLevel(data), GenerateRecommendations(data.redFlags))
    case (Some(p), Some(r), Some(recs)) =>
      Some(Results(p, r, GenerateResultsSummary(PathwayName(p)), recs))
    case _ => None
  }

  /** Building the assessment record reads fields of the symptoms, functional
      and scales slices, which throws when one of them is null or undefined. */
  predicate AssessmentReadable(data: ScreeningData) {
    data.symptoms.Readable() && data.functional.Readable() && data.scales.Readable()
  }

  class ScreeningWizard {
    var currentStep: int
    var screeningData: ScreeningData
    var isSubmitting: bool
    var results: Option<Results>

    ghost predicate Valid()
      reads this
    {
      1 <= currentStep <= RESULTS_STEP
    }

    constructor ()
      ensures Valid()
      ensures currentStep == 1 && screeningData == INITIAL_DATA
      ensures !isSubmitting && results == None
    {
      currentStep := 1;
      screeningData := INITIAL_DATA;
      isSubmitting := false;
      results := None;
    }

    /** handleNext: forward one step while below 7, so 6 -> 7 needs no submission. */
    method HandleNext()
      requires Valid()
      modifies this
      ensures Valid()
      ensures old(currentStep) < RESULTS_STEP ==> currentStep == old(currentStep) + 1
      ensures old(currentStep) == RESULTS_STEP ==> currentStep == RESULTS_STEP
      ensures screeningData == old(screeningData) && results == old(results)
      ensures isSubmitting == old(isSubmitting)
    {
      if currentStep < RESULTS_STEP {
        currentStep := currentStep + 1;
      }
    }

    /** handlePrevious: back one step while above 1. */
    method HandlePrevious()
      requires Valid()
      modifies this
      ensures Valid()
      ensures old(currentStep) > 1 ==> currentStep == old(currentStep) - 1
      ensures old(currentStep) == 1 ==> currentStep == 1
      ensures screeningData == old(screeningData) && results == old(results)
      ensures isSubmitting == old(isSubmitting)
    {
      if currentStep > 1 {
        currentStep := currentStep - 1;
      }
    }

    /** updateScreeningData: the named slice is replaced, the other five kept. */
    method UpdateScreeningData(stepData: Json, stepName: Slice)
      requires Valid()
      modifies this
      ensures Valid()
      ensures screeningData.Get(stepName) == stepData
      ensures forall k :: k != stepName ==> screeningData.Get(k) == old(screeningData).Get(k)
      ensures currentStep == old(currentStep) && results == old(results)
      ensures isSubmitting == old(isSubmitting)
    {
      screeningData := screeningData.With(stepName, stepData);
    }

    /** handleSubmitScreening. The three entity calls are given as outcomes:
        `patientCreated` for Patient.create, `assessmentCreated` for
        ScreeningAssessment.create and `patientUpdated` for Patient.update.
        Any failure, including a TypeError thrown while classifying, lands in
        the catch and leaves the wizard as it was. */
    method HandleSubmitScreening(patientCreated: bool, assessmentCreated: bool, patientUpdated: bool)
      requires Valid()
      modifies this
      ensures Valid()
      ensures screeningData == old(screeningData) && !isSubmitting
      ensures var ok := patientCreated && assessmentCreated && patientUpdated
                        && ComputeResults(old(screeningData)).Some?
                        && AssessmentReadable(old(screeningData));
        && (ok ==> currentStep == RESULTS_STEP && results == ComputeResults(old(screeningData)))
        && (!ok ==> currentStep == old(currentStep) && results == old(results))
    {
      isSubmitting := true;
      // Patient.create, then the two classifiers and the assessment record
      // (each may throw), then ScreeningAssessment.create and Patient.update.
      var computed := ComputeResults(screeningData);
      var ok := patientCreated && computed.Some? && AssessmentReadable(screeningData)
                && assessmentCreated && patientUpdated;
      if ok {
        results := computed;
        currentStep := RESULTS_STEP;
      }
      isSubmitting := false;
    }
  }

  // ---------------------------------------------------------------------------
  // Properties of the triage rules

  /** A red-flag answer that is exactly `true` decides both outcomes,
      whatever the pain areas hold (even a slice that would throw). */
  lemma RedFlagDominates(data: ScreeningData)
    requires SomeValueTrue(data.redFlags) == Some(true)
    ensures DetermineRecommendedPathway(data) == Some(UrgentMedicalAssessment)
    ensures DetermineRiskLevel(data) == Some(Urgent)
    ensures GenerateRecommendations(data.redFlags) == Some(URGENT_RECOMMENDATIONS)
  {
  }

  /** Without a true red flag the pathway bands the worst pain at 7 and 4 and
      the risk bands it at 8 and 5. */
  lemma {:induction false} Bands(data: ScreeningData, worst: Number)
    requires SomeValueTrue(data.redFlags) == Some(false)
    requires WorstPain(data.painAreas) == Some(worst)
    ensures DetermineRecommendedPathway(data) == Some(PersonalizedCare) <==> AtLeast(worst, 7)
    ensures DetermineRecommendedPathway(data) == Some(StandardizedProgram) <==> AtLeast(worst, 4) && !AtLeast(worst, 7)
    ensures DetermineRecommendedPathway(data) == Some(SelfManagement) <==> !AtLeast(worst, 4)
    ensures DetermineRiskLevel(data) == Some(High) <==> AtLeast(worst, 8)
    ensures DetermineRiskLevel(data) == Some(Medium) <==> AtLeast(worst, 5) && !AtLeast(worst, 8)
    ensures DetermineRiskLevel(data) == Some(Low) <==> !AtLeast(worst, 5)
  {
  }

  /** The worst pain of a list of areas, all carrying a numeric
      `pain_level_worst`, is at least k exactly when some area is. */
  lemma {:induction false} WorstPainAtLeast(areas: seq<Json>, k: int)
    requires forall i :: 0 <= i < |areas| ==> areas[i].Obj? && "pain_level_worst" in areas[i].fields
                                                 && areas[i].fields["pain_level_worst"].Num?
    ensures WorstPain(Arr(areas)).Some?
    ensures AtLeast(WorstPain(Arr(areas)).value, k)
        <==> exists i :: 0 <= i < |areas| && areas[i].fields["pain_level_worst"].n >= k
  {
    var values := WorstValues(areas).value;
    var m := Max(values);
    assert forall i :: 0 <= i < |areas| ==> values[i] == Val(areas[i].fields["pain_level_worst"].n);
    if exists i :: 0 <= i < |areas| && areas[i].fields["pain_level_worst"].n >= k {
      var i :| 0 <= i < |areas| && areas[i].fields["pain_level_worst"].n >= k;
      assert values[i] == Val(areas[i].fields["pain_level_worst"].n);
      assert m.Val?;
    }
    if AtLeast(m, k) {
      var j :| 0 <= j < |values| && values[j] == Val(m.n);
      assert areas[j].fields["pain_level_worst"].n >= k;
    }
  }

  /** No pain areas: `Math.max()` is -Infinity, so self-management and low risk. */
  lemma NoAreasIsLowest(data: ScreeningData)
    requires SomeValueTrue(data.redFlags) == Some(false) && data.painAreas == Arr([])
    ensures WorstPain(data.painAreas) == Some(NegInf)
    ensures DetermineRecommendedPathway(data) == Some(SelfManagement)
    ensures DetermineRiskLevel(data) == Some(Low)
  {
  }

  /** An area without `pain_level_worst` makes the maximum NaN, which fails
      every comparison: self-management and low risk. */
  lemma {:induction false} MissingWorstIsLowest(data: ScreeningData, i: nat)
    requires SomeValueTrue(data.redFlags) == Some(false) && data.painAreas.Arr?
    requires i < |data.painAreas.items| && data.painAreas.items[i] == Obj(map[])
    requires forall j :: 0 <= j < |data.painAreas.items| ==> data.painAreas.items[j].Readable()
    ensures WorstPain(data.painAreas) == Some(NaN)
    ensures DetermineRecommendedPathway(data) == Some(SelfManagement)
    ensures DetermineRiskLevel(data) == Some(Low)
  {
    var values := WorstValues(data.painAreas.items).value;
    assert values[i] == NaN;
  }

  /** What the pain-mapping step reports, `{painAreas, pain_narrative}`, is an
      object with no `map`: classifying it throws, so no results come out. */
  lemma ObjectSliceThrows(data: ScreeningData)
    requires SomeValueTrue(data.redFlags) == Some(false) && data.painAreas.Obj?
    ensures DetermineRecommendedPathway(data) == None
    ensures DetermineRiskLevel(data) == None
    ensures ComputeResults(data) == None
  {
  }

  function Area(worst: int): Json {
    Obj(map["pain_level_worst" := Num(worst)])
  }

  /** Worst 9: personalised care, high risk; worst 7: personalised care,
      medium risk; worst 4: standardised programme, low risk. */
  lemma ThresholdExamples()
    ensures var d := INITIAL_DATA.(painAreas := Arr([Area(9), Area(2)]));
      DetermineRecommendedPathway(d) == Some(PersonalizedCare) && DetermineRiskLevel(d) == Some(High)
    ensures var d := INITIAL_DATA.(painAreas := Arr([Area(7)]));
      DetermineRecommendedPathway(d) == Some(PersonalizedCare) && DetermineRiskLevel(d) == Some(Medium)
    ensures var d := INITIAL_DATA.(painAreas := Arr([Area(4)]));
      DetermineRecommendedPathway(d) == Some(StandardizedProgram) && DetermineRiskLevel(d) == Some(Low)
  {
    ThresholdHigh();
    ThresholdMedium();
    ThresholdLow();
  }

  lemma ThresholdHigh()
    ensures var d := INITIAL_DATA.(painAreas := Arr([Area(9), Area(2)]));
      DetermineRecommendedPathway(d) == Some(PersonalizedCare) && DetermineRiskLevel(d) == Some(High)
  {
    var high := [Area(9), Area(2)];
    WorstPainAtLeast(high, 8);
    WorstPainAtLeast(high, 7);
    assert high[0].fields["pain_level_worst"].n >= 8;
  }

  lemma ThresholdMedium()
    ensures var d := INITIAL_DATA.(painAreas := Arr([Area(7)]));
      DetermineRecommendedPathway(d) == Some(PersonalizedCare) && DetermineRiskLevel(d) == Some(Medium)
  {
    var seven := [Area(7)];
    WorstPainAtLeast(seven, 8);
    WorstPainAtLeast(seven, 7);
    assert seven[0].fields["pain_level_worst"].n >= 7;
  }

  lemma ThresholdLow()
    ensures var d := INITIAL_DATA.(painAreas := Arr([Area(4)]));
      DetermineRecommendedPathway(d) == Some(StandardizedProgram) && DetermineRiskLevel(d) == Some(Low)
  {
    var four := [Area(4)];
    WorstPainAtLeast(four, 5);
    WorstPainAtLeast(four, 4);
    assert four[0].fields["pain_level_worst"].n >= 4;
  }
}
