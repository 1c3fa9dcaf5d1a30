/** The patient record as the pages read it. */
module Patients {
  import opened Js

  /** `screening_completed` is read for truthiness; `care_pathway` may be
      absent. */
  datatype Patient = Patient(firstName: string, screeningCompleted: Json, carePathway: Option<string>)

  /** `!patientData || !patientData.screening_completed` negated: a patient
      is listed and has completed the screening. */
  predicate ScreeningDone(patient: Option<Patient>) {
    patient.Some? && Truthy(patient.value.screeningCompleted)
  }
}
