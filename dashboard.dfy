/** The decisions of src/pages/Dashboard.jsx: the greeting, the next step
    and the care-pathway label. */
module Dashboard {
  import opened Js
  import opened Text
  import opened Patients

  /** The greeting; the hour of the day (0-23) is passed in. */
  function WelcomeMessage(patient: Option<Patient>, hour: int): (r: string)
    ensures patient.None? ==> r == "Welcome to PhysioPath"
    ensures patient.Some? && hour < 12 ==> r == "Good morning, " + patient.value.firstName
    ensures patient.Some? && 12 <= hour < 17 ==> r == "Good afternoon, " + patient.value.firstName
    ensures patient.Some? && hour >= 17 ==> r == "Good evening, " + patient.value.firstName
  {
    if patient.None? then "Welcome to PhysioPath"
    else
      var greeting := if hour < 12 then "Good morning" else if hour < 17 then "Good afternoon" else "Good evening";
      greeting + ", " + patient.value.firstName
  }

  datatype Priority = High | Medium | Low

  /** The three next-step cards. */
  datatype NextStep = BeginScreening | ViewProviders | StartSession

  function PriorityOf(step: NextStep): Priority {
    match step
    case BeginScreening => High
    case ViewProviders => Medium
    case StartSession => Low
  }

  /** getNextSteps: screening first; then providers for a referral; else the
      program. */
  function GetNextSteps(patient: Option<Patient>): (r: NextStep)
    ensures r == BeginScreening <==> !ScreeningDone(patient)
    ensures r == ViewProviders <==> ScreeningDone(patient) && patient.value.carePathway == Some("referral")
    ensures r == StartSession <==> ScreeningDone(patient) && patient.value.carePathway != Some("referral")
  {
    if !ScreeningDone(patient) then BeginScreening
    else if patient.value.carePathway == Some("referral") then ViewProviders
    else StartSession
  }

  /** The step's priority follows the same three cases. */
  lemma NextStepPriority(patient: Option<Patient>)
    ensures PriorityOf(GetNextSteps(patient)) == High <==> !ScreeningDone(patient)
    ensures PriorityOf(GetNextSteps(patient)) == Medium
      <==> ScreeningDone(patient) && patient.value.carePathway == Some("referral")
    ensures PriorityOf(GetNextSteps(patient)) == Low
      <==> ScreeningDone(patient) && patient.value.carePathway != Some("referral")
  {
  }

  /** The care-pathway card: the pathway with its first '_' turned into a
      space, or "Not Started" when there is none (or it is empty). */
  function CarePathwayLabel(patient: Option<Patient>): (r: string)
    ensures patient.None? || patient.value.carePathway.None? ==> r == "Not Started"
    ensures patient.Some? && patient.value.carePathway.Some? && patient.value.carePathway.value != "" ==>
      r == ReplaceFirst(patient.value.carePathway.value, '_', ' ')
    ensures r != ""
  {
    if patient.None? || patient.value.carePathway.None? then "Not Started"
    else
      var shown := ReplaceFirst(patient.value.carePathway.value, '_', ' ');
      if shown == "" then "Not Started" else shown
  }
}
