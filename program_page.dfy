/** The logic of src/pages/Program.jsx: the loaded records, the screening
    gate, the two summary averages and the tab dispatch. */
module ProgramPage {
  import opened Js
  import opened Patients
  import opened Progress

  /** `list[0] || null`: the first listed record, if any. */
  function FirstOrNull<T>(list: seq<T>): (r: Option<T>)
    ensures list == [] <==> r.None?
    ensures list != [] ==> r == Some(list[0])
  {
    if list == [] then None else Some(list[0])
  }

  /** Average pain: the rounded mean of the pain levels (missing as 0), 0
      with no sessions; levels on the 0-10 scale give a value on it. */
  function AveragePain(progress: seq<ProgressRecord>): (r: int)
    ensures progress == [] ==> r == 0
    ensures progress != [] ==>
      2 * |progress| * r <= 2 * Seqs.Sum(Pains(progress)) + |progress| < 2 * |progress| * r + 2 * |progress|
    ensures (forall i :: 0 <= i < |progress| ==> 0 <= PainOrZero(progress[i]) <= 10) ==> 0 <= r <= 10
  {
    PainsOnScale(progress);
    MeanRounded(Pains(progress))
  }

  /** Average adherence: the rounded mean of the adherence scores (missing
      as 0), 0 with no sessions; percentages give a percentage. */
  function AverageAdherence(progress: seq<ProgressRecord>): (r: int)
    ensures progress == [] ==> r == 0
    ensures progress != [] ==>
      2 * |progress| * r <= 2 * Seqs.Sum(Adherences(progress)) + |progress| < 2 * |progress| * r + 2 * |progress|
    ensures (forall i :: 0 <= i < |progress| ==> 0 <= AdherenceOrZero(progress[i]) <= 100) ==> 0 <= r <= 100
  {
    AdherencesArePercent(progress);
    MeanRounded(Adherences(progress))
  }

  lemma PainsOnScale(progress: seq<ProgressRecord>)
    ensures (forall i :: 0 <= i < |progress| ==> 0 <= PainOrZero(progress[i]) <= 10) ==>
      0 <= MeanRounded(Pains(progress)) <= 10
  {
    if forall i :: 0 <= i < |progress| ==> 0 <= PainOrZero(progress[i]) <= 10 {
      MeanWithin(Pains(progress), 0, 10);
    }
  }

  lemma AdherencesArePercent(progress: seq<ProgressRecord>)
    ensures (forall i :: 0 <= i < |progress| ==> 0 <= AdherenceOrZero(progress[i]) <= 100) ==>
      0 <= MeanRounded(Adherences(progress)) <= 100
  {
    if forall i :: 0 <= i < |progress| ==> 0 <= AdherenceOrZero(progress[i]) <= 100 {
      AdherenceMeanIsPercent(progress);
    }
  }

  /** The component each tab renders. */
  datatype TabView = TodaysWorkoutView | ProgramOverviewView | ExerciseLibraryView | ProgressTrackingView

  /** renderActiveTab: the four known tabs, and today's session for any
      other value. */
  function RenderActiveTab(activeTab: string): (r: TabView)
    ensures activeTab == "overview" <==> r == ProgramOverviewView
    ensures activeTab == "exercises" <==> r == ExerciseLibraryView
    ensures activeTab == "progress" <==> r == ProgressTrackingView
    ensures activeTab !in {"overview", "exercises", "progress"} <==> r == TodaysWorkoutView
  {
    if activeTab == "overview" then ProgramOverviewView
    else if activeTab == "exercises" then ExerciseLibraryView
    else if activeTab == "progress" then ProgressTrackingView
    else TodaysWorkoutView
  }

  datatype Page =
    | AssessmentPrompt
    | ProgramTabs(tab: TabView, averagePain: int, averageAdherence: int)

  /** The loaded page: without a screened patient only the assessment
      prompt; otherwise the summary and the active tab. */
  function RenderProgram(patients: seq<Patient>, progress: seq<ProgressRecord>, activeTab: string): (r: Page)
    ensures r.AssessmentPrompt? <==> !ScreeningDone(FirstOrNull(patients))
    ensures r.ProgramTabs? ==> r.tab == RenderActiveTab(activeTab)
    ensures r.ProgramTabs? ==> r.averagePain == AveragePain(progress) && r.averageAdherence == AverageAdherence(progress)
  {
    if !ScreeningDone(FirstOrNull(patients)) then AssessmentPrompt
    else ProgramTabs(RenderActiveTab(activeTab), AveragePain(progress), AverageAdherence(progress))
  }
}
