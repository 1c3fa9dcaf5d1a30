# PhysioPath portal core in Dafny

This project models the logic of the PhysioPath patient portal. The portal is a React web application for a physiotherapy care pathway. The model covers these areas:

- **Screening.** The multi-step screening wizard and its pathway/risk classifier. The screening widgets are the pain-mapping store with undo, the freehand body chart, the sensation controls, the red-flag screen and the validated questionnaires.
- **Dashboard.** The welcome card and the next-steps list. The health insights and the progress overview.
- **Exercise program.** The program page and the program overview. The weekly session player and the set-by-set exercise player. The stand-alone exercise timer, the exercise library and today's-workout card. The exercise-session page with its preparation estimate and its session player.
- **Other pages and helpers.** The education and provider directories with their filters, recommendations and engagement writes. The support-request modal. The shared utility and accordion helpers.

The model follows the form of the code:

- **Handlers that change component state** become methods of a class. The class fields are the component's state variables. Each method's `ensures` clauses give the complete new state.
- **Pure helpers** become functions with named results, and lemmas relate them. Examples: classifiers, filters, formatters, averages and merges.
- **JavaScript values** that the components read without a fixed shape (answer maps, red-flag objects, untyped props) are the `Js.Json` datatype. Its truthiness, `||`, spread, `Number(...)` and `Math.max` are written out in `Js`.
- **Clock, persistence and network.** Clock readings are parameters. Each entity call (`Patient.create`, `SupportRequest.create`, …) becomes a boolean outcome parameter or a returned record.

Shared modules:

- `Js`: JavaScript values.
- `Text`: decimal and hex conversion with round trips, ASCII lower case, `includes`, `join`, `padStart`, `replace`.
- `Seqs`: `filter`, `new Set` as `Dedup`, sums, `Math.round` of a quotient.
- `Progress`: the session progress record shared by the dashboard and program components.
- `Patients`: the patient record.

## Model

| member | source | states |
|---|---|---|
| Js.Or | src/pages/Screening.jsx:127 | `a \|\| b` yields `a` exactly when `a` is truthy, otherwise `b` |
| Js.Get | src/components/screening/RedFlagScreen.jsx:8 | property access yields the own property (an object's field, or an array's or string's element under its index key) when present, and `undefined` otherwise |
| Js.IndexFieldsKeys | src/utils/index.js:44-45 | a spread or `Object.keys` of an array or string sees each index i under the key `String(i)`, holding the i-th element |
| Js.IndexFieldsOnlyIndices | src/utils/index.js:44-45 | an array or string has no own enumerable keys other than its indices |
| Js.SomeValueTrue | src/pages/Screening.jsx:123 | `Object.values(v).some(x => x === true)` throws exactly on null/undefined, and is true exactly when some property is `true` |
| Js.ToNumber | src/pages/Screening.jsx:127 | `Number(v)`: numbers convert to themselves, `undefined` and objects to NaN, null, `""`, `[]` and `false` to 0 |
| Js.Max | src/pages/Screening.jsx:127 | `Math.max(...xs)` is NaN iff some argument is NaN, -Infinity for no arguments, and otherwise the largest argument, which is one of them |
| Js.IntToStringNumber | src/components/screening/ValidatedScales.jsx:100 | an integer written with `toString()` converts back to the same number |
| Screening.ScreeningData.With | src/pages/Screening.jsx:58-63 | replacing one step slice sets that slice and leaves every other slice unchanged |
| Screening.WorstValues | src/pages/Screening.jsx:127 | mapping `pain_level_worst` over the pain areas throws iff some area is null/undefined, and otherwise converts each area's worst pain in order |
| Screening.PathwayFromName | src/pages/Screening.jsx:146-152 | a pathway name maps back to exactly the pathway that bears it |
| Screening.GenerateResultsSummary | src/pages/Screening.jsx:145-153 | a known pathway name yields that pathway's summary, and any other name yields `""` |
| Screening.GenerateRecommendations | src/pages/Screening.jsx:155-161 | always three recommendations; the urgent three iff some red flag is `true`; throws iff the red flags are null/undefined |
| Screening.ScreeningWizard.constructor | src/pages/Screening.jsx:21-31 | the wizard starts at step 1 with six empty slices, not submitting and no results |
| Screening.ScreeningWizard.HandleNext | src/pages/Screening.jsx:46-50 | advances one step up to step 7 (the results step) and changes nothing else |
| Screening.ScreeningWizard.HandlePrevious | src/pages/Screening.jsx:52-56 | goes back one step but never below step 1, and changes nothing else |
| Screening.ScreeningWizard.UpdateScreeningData | src/pages/Screening.jsx:58-63 | replaces exactly the named slice, and leaves the step and results alone |
| Screening.ScreeningWizard.HandleSubmitScreening | src/pages/Screening.jsx:65-120 | the answers are never altered and the form is not submitting afterwards. It reaches step 7 with the computed results only when every entity call succeeds and classification does not throw. Otherwise step and results stay as they were |
| Screening.RedFlagDominates | src/pages/Screening.jsx:122-143 | any red flag answered `true` forces the urgent pathway, urgent risk and the urgent recommendations whatever the pain |
| Screening.Bands | src/pages/Screening.jsx:127-142 | without red flags: the pathway is personalized iff worst ≥ 7, standardized iff 4 ≤ worst < 7, self-management otherwise; the risk is high iff worst ≥ 8, medium iff 5 ≤ worst < 8, low otherwise |
| Screening.WorstPainAtLeast | src/pages/Screening.jsx:127 | when every area carries a worst pain, the maximum is a number at least as large as each of them |
| Screening.NoAreasIsLowest | src/pages/Screening.jsx:127-142 | with no marked areas the maximum is -Infinity, giving self-management and low risk |
| Screening.MissingWorstIsLowest | src/pages/Screening.jsx:127-142 | one area without `pain_level_worst` makes the maximum NaN, giving self-management and low risk |
| Screening.ObjectSliceThrows | src/pages/Screening.jsx:127 | when the pain slice is an object (the shape the pain-mapping step reports) both classifiers throw and no results are computed |
| Screening.ThresholdExamples | src/pages/Screening.jsx:128-140 | worst 9 gives personalized/high, worst 7 personalized/medium, worst 4 standardized/low |
| PainMapping.WithoutId | src/components/screening/PainMapping.jsx:55-58 | removal keeps, in order, exactly the areas whose id differs, each as often as it occurs |
| PainMapping.Apply | src/components/screening/PainMapping.jsx:37-58 | every mutation pushes the previous area list onto the history |
| PainMapping.Undo | src/components/screening/PainMapping.jsx:42-48 | undo restores the most recent history entry and pops it; with no history nothing changes |
| PainMapping.UndoAfterMutation | src/components/screening/PainMapping.jsx:37-58 | undo right after any add, remove or reset restores the store exactly |
| PainMapping.HistoryGrows | src/components/screening/PainMapping.jsx:37-58 | n mutations grow the history by exactly n |
| PainMapping.UndoIsLifo | src/components/screening/PainMapping.jsx:37-58 | n undos after n mutations restore the original store (last in, first out) |
| PainMapping.UndoTimesUnroll | src/components/screening/PainMapping.jsx:42-48 | n+1 undos are one undo after n undos |
| PainMapping.SymptomMap.constructor | src/components/screening/PainMapping.jsx:22-30 | starts with the given areas (or none), an empty history, the given narrative, the front view and the default sensation |
| PainMapping.SymptomMap.AddMarkedArea | src/components/screening/PainMapping.jsx:37-40 | appends the area and pushes the old list; the state moves exactly as `Apply` with an add |
| PainMapping.SymptomMap.HandleUndo | src/components/screening/PainMapping.jsx:42-48 | restores the last saved list and pops it, exactly as `Undo`; nothing else changes |
| PainMapping.SymptomMap.HandleReset | src/components/screening/PainMapping.jsx:50-53 | clears the areas and pushes the old list |
| PainMapping.SymptomMap.HandleRemoveArea | src/components/screening/PainMapping.jsx:55-58 | removes the areas with that id and pushes the old list |
| PainMapping.SymptomMap.SetPainNarrative | src/components/screening/PainMapping.jsx:117 | sets only the narrative |
| PainMapping.SymptomMap.SetCurrentView | src/components/screening/PainMapping.jsx:78-79 | sets only the view |
| PainMapping.SymptomMap.SetCurrentSensation | src/components/screening/PainMapping.jsx:97 | sets only the sensation |
| BodyChart.GetMousePosition | src/components/screening/InteractiveBodyChart.jsx:9-14 | a position exists iff the SVG is mounted and has a transform matrix |
| BodyChart.Commands | src/components/screening/InteractiveBodyChart.jsx:46 | one path command per point, in order |
| BodyChart.PathData | src/components/screening/InteractiveBodyChart.jsx:46 | every path is closed with ` Z` |
| BodyChart.CommandCounts | src/components/screening/InteractiveBodyChart.jsx:46 | the first point is a move (`M`) and every later point a line (`L`) |
| BodyChart.LineCommands | src/components/screening/InteractiveBodyChart.jsx:46 | joined line commands hold no `M` and one `L` each |
| BodyChart.PathCommands | src/components/screening/InteractiveBodyChart.jsx:46 | a polygon of n points has a path with exactly one `M` (first) and n-1 `L`s |
| BodyChart.AreaIdInjective | src/components/screening/InteractiveBodyChart.jsx:49 | distinct clock values give distinct area ids |
| BodyChart.DrawingSession.constructor | src/components/screening/InteractiveBodyChart.jsx:5-6 | starts not drawing with no points |
| BodyChart.DrawingSession.HandleMouseDown | src/components/screening/InteractiveBodyChart.jsx:27-35 | without a position nothing changes; otherwise the first press starts a polygon at the point and later presses append it |
| BodyChart.DrawingSession.HandleFinishDrawing | src/components/screening/InteractiveBodyChart.jsx:38-59 | always stops drawing and clears the points; emits an area only for three or more points, with the path, view, sensation and clock id |
| BodyChart.DrawingSession.HandleDoubleClick | src/components/screening/InteractiveBodyChart.jsx:61-66 | finishes the polygon only while drawing; otherwise nothing changes |
| BodyChart.VisibleAreas | src/components/screening/InteractiveBodyChart.jsx:83 | keeps, in order, exactly the areas drawn on the current view, each as often as it occurs |
| BodyChart.FillAlphaValue | src/components/screening/InteractiveBodyChart.jsx:87 | the alpha suffix is hexadecimal for 20 × intensity, two digits for intensities up to 12 |
| BodyChart.FillAlphaEnds | src/components/screening/InteractiveBodyChart.jsx:87 | intensity 0 gives `00` and intensity 10 gives `c8` |
| SymptomControls.HandleTypeChange | src/components/screening/SymptomControls.jsx:8-14 | sets the type with its matching colour and keeps the intensity |
| SymptomControls.HandleIntensityChange | src/components/screening/SymptomControls.jsx:16-21 | sets the intensity from the slider value and keeps type and colour |
| SymptomControls.ColorStaysMatched | src/components/screening/SymptomControls.jsx:8-21 | both handlers keep colour and type consistent |
| SymptomControls.SliderRoundTrip | src/components/screening/SymptomControls.jsx:53-56 | feeding the slider's own value back changes nothing |
| SymptomControls.InitialOnSlider | src/components/screening/SymptomControls.jsx:53-56 | the default sensation is consistent and on the 0–10 slider, and slider input keeps intensity on it |
| RedFlagScreen.LocalFlags | src/components/screening/RedFlagScreen.jsx:8 | the screen starts from the stored red flags when truthy and from `{}` otherwise |
| RedFlagScreen.HandleChange | src/components/screening/RedFlagScreen.jsx:10-12 | sets the one answer and copies every other own property unchanged |
| RedFlagScreen.Checked | src/components/screening/RedFlagScreen.jsx:44 | a switch shows its stored answer when truthy and `false` otherwise |
| RedFlagScreen.UnansweredIsOff | src/components/screening/RedFlagScreen.jsx:44 | an unanswered question shows as off |
| RedFlagScreen.SwitchOnWarns | src/components/screening/RedFlagScreen.jsx:50 | the answers handleChange reports after switching a question on pass the any-true warning test (on screen the wiring defeats this; see Findings) |
| RedFlagScreen.WarningIsUrgency | src/components/screening/RedFlagScreen.jsx:50 | on one answers map, the warning test holds iff the classifier returns the urgent pathway and the urgent recommendations |
| RedFlagScreen.WiredScreenForgets | src/pages/Screening.jsx:172 | as wired, the screen reads `redFlags` inside the red-flag slice: every switch shows off, the warning never shows, and an edit reports only the edited answer |
| RedFlagScreen.SliceFlags | src/components/screening/RedFlagScreen.jsx:8 | the corrected reading `data \|\| {}` edits the slice it is given |
| RedFlagScreen.SliceScreenKeepsAnswers | src/components/screening/RedFlagScreen.jsx:8-12 | with the corrected reading, switching a question on shows it on, shows the warning, and leaves every other switch as it was |
| ValidatedScales.PsfsItem.constructor | src/components/screening/ValidatedScales.jsx:37 | a new item holds the given activity and rating |
| ValidatedScales.ItemsJson | src/components/screening/ValidatedScales.jsx:17-19 | the reported items are the current items' activity and rating, in order |
| ValidatedScales.Report | src/components/screening/ValidatedScales.jsx:17-19 | the report replaces `psfs_items` and copies every other key of the data |
| ValidatedScales.Psfs.constructor | src/components/screening/ValidatedScales.jsx:15 | the list starts with the given items |
| ValidatedScales.Psfs.HandleActivityChange | src/components/screening/ValidatedScales.jsx:21-26 | sets the indexed item's activity in place, including in the previous list it shares objects with; other items keep their fields; the report is of the new items |
| ValidatedScales.Psfs.HandleRatingChange | src/components/screening/ValidatedScales.jsx:28-33 | the same for the rating, taken from the slider value |
| ValidatedScales.Psfs.AddItem | src/components/screening/ValidatedScales.jsx:35-41 | below three items a fresh item ("", 5) is appended and reported; at three nothing happens; the list never exceeds three |
| ValidatedScales.Psfs.RemoveItem | src/components/screening/ValidatedScales.jsx:43-47 | removes the indexed item, or keeps the list for an index outside it, and reports |
| ValidatedScales.Responses | src/components/screening/ValidatedScales.jsx:87 | given the scales record, the responses default to `{}` when the field is falsy |
| ValidatedScales.HandleResponseChange | src/components/screening/ValidatedScales.jsx:89-92 | given the scales record, sets the answer for one question and keeps the other answers and the other fields |
| ValidatedScales.AnswerIsSelected | src/components/screening/ValidatedScales.jsx:100-125 | given the scales record, after answering the radio group shows that answer and no other question changes; FABQ answers lie in 0–6 and PHQ answers in 0–3 |
| ValidatedScales.ScalesRecord | src/components/screening/ValidatedScales.jsx:129 | the component works on `data.scales`, `{}` when that is falsy |
| ValidatedScales.WiredScalesForget | src/pages/Screening.jsx:172 | as wired, the slice has no `scales` key: no question shows a selection even after answering, an answer is stored as a slice holding only that answer, and a PSFS edit as a slice holding only the items |
| ValidatedScales.SliceScales | src/components/screening/ValidatedScales.jsx:129 | the corrected reading `data \|\| {}` works on the slice it is given |
| ValidatedScales.SliceScalesKeepAnswers | src/components/screening/ValidatedScales.jsx:87-92 | with the corrected reading, an answer is shown after it is stored, other questions keep their selection, other keys of the slice such as the PSFS items are kept, and a PSFS report keeps the answers |
| Utils.StringifyAll | src/utils/index.js:4-6 | each class value is converted to its string form |
| Utils.CnDropsFalsy | src/utils/index.js:4-6 | falsy class values contribute nothing |
| Utils.CnJoinsWithSpace | src/utils/index.js:4-6 | two class names are joined by one space |
| Utils.Clamp | src/utils/index.js:9-12 | the result lies in [min, max], equals the value when inside, and treats NaN as 0 |
| Utils.ClampIdempotent | src/utils/index.js:9-12 | clamping twice equals clamping once |
| Utils.Pct | src/utils/index.js:14-17 | the percentage lies in [0, 100]; an empty range divides by zero (no number) |
| Utils.PctEnds | src/utils/index.js:14-17 | min maps to 0 and max to 100 |
| Utils.DeepMerge | src/utils/index.js:43-57 | the keys are the union of the spread keys (object fields, array and string indices); target-only keys keep their value, source non-objects override, and source plain objects merge recursively |
| Utils.DeepMergeLoop | src/utils/index.js:43-57 | the key-by-key loop produces exactly `DeepMerge` |
| Utils.MergeLoop | src/utils/index.js:45-55 | the for-of loop writes exactly each source key's entry over the copy of the target |
| Utils.MergeKey | src/utils/index.js:46-54 | one iteration stores the recursive merge for a plain-object value and the value itself otherwise |
| Utils.MergeEmptySource | src/utils/index.js:44-45 | a source without own enumerable keys (null, undefined, a boolean, a number, or an empty object, array or string) leaves a copy of the target |
| Utils.MergeKeepsArrayIndices | src/utils/index.js:44 | an array target keeps each element under its index key unless the source names that key |
| Utils.MergeArrayIntoEmpty | src/utils/index.js:43-57 | an array source without object elements merged into `{}` gives its index-keyed copy |
| Utils.MergeIntoEmpty | src/utils/index.js:43-57 | merging into `{}` copies the source |
| Utils.MergeSelf | src/utils/index.js:43-57 | merging an object with itself gives back its fields |
| Accordion.InitialState | src/components/ui/accordion.jsx:36-40 | multiple mode starts from the default array (or `[]`), single mode from the default value (or null) |
| Accordion.ToggleMultiple | src/components/ui/accordion.jsx:45-49 | removes the value when open and appends it when closed |
| Accordion.ToggleSingle | src/components/ui/accordion.jsx:51-54 | closes the open section and otherwise opens exactly the one clicked |
| Accordion.ToggleChangesOnlyVal | src/components/ui/accordion.jsx:45-49 | toggling changes only the occurrences of the clicked value |
| Accordion.ToggleTwiceRestores | src/components/ui/accordion.jsx:45-49 | opening and closing a closed section restores the list |
| Accordion.ToggleFlipsOnlyItsSection | src/components/ui/accordion.jsx:45-67 | a click flips exactly its own section in multiple mode; in single mode it closes every other section |
| Accordion.AccordionState.constructor | src/components/ui/accordion.jsx:35-40 | internal state starts from the default value |
| Accordion.AccordionState.Toggle | src/components/ui/accordion.jsx:35-53 | a controlled accordion emits the next value and keeps its internal state; an uncontrolled one stores it and emits nothing |
| Progress.Pains | src/components/program/ProgressTracking.jsx:60 | one pain per record, 0 when absent |
| Progress.Adherences | src/components/program/ProgressTracking.jsx:62 | one adherence per record, 0 when absent |
| Progress.MeanRounded | src/components/dashboard/ProgressOverview.jsx:19-24 | `Math.round` of the mean: within half a unit of the exact mean, 0 for no records |
| Progress.MeanWithin | src/components/dashboard/ProgressOverview.jsx:19-24 | a rounded mean of values in a range around 0 stays in that range |
| Progress.AdherenceMeanIsPercent | src/components/dashboard/ProgressOverview.jsx:19-24 | the rounded mean adherence of percentages is a percentage |
| ProgressTracking.ChartData | src/components/program/ProgressTracking.jsx:19-29 | the chart shows the newest ten records (or all), oldest first |
| ProgressTracking.ChartLabelsDistinct | src/components/program/ProgressTracking.jsx:23 | session labels are distinct |
| ProgressTracking.GetTrend | src/components/program/ProgressTracking.jsx:34-51 | no trend below two points; otherwise the last two points decide, with lower pain but higher adherence counting as improvement |
| ProgressTracking.TrendComparesNewest | src/components/program/ProgressTracking.jsx:34-51 | the trend compares the newest record with the one before it |
| ProgressTracking.AveragePainTenths | src/components/program/ProgressTracking.jsx:59-60 | the shown average pain is the mean pain rounded half up to one decimal (its tenths lie within half a tenth of ten times the mean), and 0 without records |
| ProgressTracking.AveragePainOnScale | src/components/program/ProgressTracking.jsx:59-60 | pains on the 0–10 scale average to at most 10.0 |
| ProgressTracking.CalculateStreak | src/components/program/ProgressTracking.jsx:66-84 | the streak is the longest prefix whose i-th record is exactly i days old |
| ProgressOverview.GetProgressTrend | src/components/dashboard/ProgressOverview.jsx:8-17 | no trend below two records; otherwise the newest pain against the previous one |
| ProgressOverview.AdherenceMessage | src/components/dashboard/ProgressOverview.jsx:78-80 | the three messages at the 80 and 60 thresholds |
| ProgressOverview.WeekLabelInjective | src/components/dashboard/ProgressOverview.jsx:30 | different week numbers (including a missing one) get different labels |
| ProgressOverview.WeeklyProgress | src/components/dashboard/ProgressOverview.jsx:43-47 | as many summaries as there are distinct weeks |
| ProgressOverview.WeeklyProgressAt | src/components/dashboard/ProgressOverview.jsx:43-47 | the i-th summary is that of the i-th week counted back from the last week to appear |
| ProgressOverview.WeeklyProgressLabels | src/components/dashboard/ProgressOverview.jsx:43-47 | each summary carries its week's `Week n` key, newest first appearance first |
| ProgressOverview.SummaryAdherenceIsPercent | src/components/dashboard/ProgressOverview.jsx:46 | a week's rounded average of percentages is a percentage |
| ProgressOverview.BucketNonEmpty | src/components/dashboard/ProgressOverview.jsx:31-38 | every listed week holds at least one session |
| ProgressOverview.BucketAbsent | src/components/dashboard/ProgressOverview.jsx:31-38 | a week with no session has an empty bucket |
| ProgressOverview.BucketWithin | src/components/dashboard/ProgressOverview.jsx:38-40 | a bucket's total adherence is between its session count times the bounds |
| ProgressOverview.WeeklyAdherenceIsPercent | src/components/dashboard/ProgressOverview.jsx:46 | each weekly average adherence is a percentage |
| ProgressOverview.CountsCoverSessions | src/components/dashboard/ProgressOverview.jsx:26-42 | the weekly session counts add up to the number of sessions |
| ProgressOverview.CountOverAdd | src/components/dashboard/ProgressOverview.jsx:38 | a session of a listed week adds one to the count |
| ProgressOverview.CountOverSkip | src/components/dashboard/ProgressOverview.jsx:31 | a session of an unlisted week adds nothing |
| ProgressOverview.CountOverAppend | src/components/dashboard/ProgressOverview.jsx:26-42 | counts over two week lists add up |
| ProgressOverview.GetWeeklyProgress | src/components/dashboard/ProgressOverview.jsx:26-47 | the grouping loop over the sessions yields exactly `WeeklyProgress` |
| ProgressOverview.GroupStep | src/components/dashboard/ProgressOverview.jsx:29-41 | one session's step keeps the grouping invariant |
| ProgressOverview.WeekOrderSnoc | src/components/dashboard/ProgressOverview.jsx:31-37 | one more session appends its week to the key order exactly when the week is new |
| ProgressOverview.BucketSnoc | src/components/dashboard/ProgressOverview.jsx:38-40 | one more session adds to its own week's totals and leaves every other week's alone |
| ProgressOverview.StepKnownWeek | src/components/dashboard/ProgressOverview.jsx:38-40 | a session of a week already present updates that bucket in place and keeps the keys |
| ProgressOverview.KnownWeekOrder | src/components/dashboard/ProgressOverview.jsx:31 | a session of a week already present leaves the key order unchanged |
| ProgressOverview.KnownWeekBucket | src/components/dashboard/ProgressOverview.jsx:38-40 | after such a session every key still holds its own week's totals |
| ProgressOverview.StepNewWeek | src/components/dashboard/ProgressOverview.jsx:31-40 | a session of a new week opens a zero bucket under a new last key, then adds to it |
| ProgressOverview.NewWeekOrder | src/components/dashboard/ProgressOverview.jsx:31-37 | a week without a key has not occurred yet and is appended to the key order |
| ProgressOverview.SummariesAgree | src/components/dashboard/ProgressOverview.jsx:43-46 | the grouped buckets summarise to the same list as the reference |
| ProgressOverview.ShownWeeks | src/components/dashboard/ProgressOverview.jsx:89 | the last four weeks (or all) are shown |
| HealthInsights.PainInsight | src/components/dashboard/HealthInsights.jsx:12-25 | the pain insight appears iff both pains are truthy and the latest is lower |
| HealthInsights.AdherenceInsight | src/components/dashboard/HealthInsights.jsx:28-51 | excellent iff the recent mean is at least 80, opportunity iff below 60, none in between |
| HealthInsights.RiskInsight | src/components/dashboard/HealthInsights.jsx:54-64 | the low-risk insight appears iff the risk level is `low` |
| HealthInsights.GetInsights | src/components/dashboard/HealthInsights.jsx:7-81 | the push-and-slice procedure yields exactly `Insights` |
| HealthInsights.InsightsShape | src/components/dashboard/HealthInsights.jsx:10-80 | one to three insights in pain, adherence, risk order; "Getting Started" iff no screening or no other insight |
| HealthInsights.ExcellentPercentInRange | src/components/dashboard/HealthInsights.jsx:36 | the displayed excellent percentage lies in 80–100 |
| ExerciseTimer.Timer.constructor | src/components/exercise/ExerciseTimer.jsx:5-8 | the timer starts full, running iff auto-start, not complete |
| ExerciseTimer.Timer.Tick | src/components/exercise/ExerciseTimer.jsx:15-35 | a tick counts down by one; at one or less it stops at 0 and completes |
| ExerciseTimer.Timer.HandleStart | src/components/exercise/ExerciseTimer.jsx:37 | starts without touching the time left |
| ExerciseTimer.Timer.HandlePause | src/components/exercise/ExerciseTimer.jsx:38 | pauses without touching the time left |
| ExerciseTimer.Timer.HandleReset | src/components/exercise/ExerciseTimer.jsx:39-43 | refills, stops and clears completion |
| ExerciseTimer.Timer.SetDuration | src/components/exercise/ExerciseTimer.jsx:10-13 | a new duration refills the timer and clears completion |
| ExerciseTimer.Timer.StartLabel | src/components/exercise/ExerciseTimer.jsx:76-80 | "Start" iff the timer is full, else "Resume" |
| ExerciseTimer.RunDown | src/components/exercise/ExerciseTimer.jsx:15-35 | a running timer completes after exactly as many ticks as seconds left |
| ExerciseTimer.FormatTimeWidth | src/components/exercise/ExerciseTimer.jsx:45-49 | below 100 minutes the display is `mm:ss` |
| ExerciseTimer.FormatTimeParses | src/components/exercise/ExerciseTimer.jsx:45-49 | reading the display back gives the seconds |
| ExercisePlayer.RestSeconds | src/components/program/ExercisePlayer.jsx:127 | the rest is the exercise's rest time, 30 s when missing or 0 |
| ExercisePlayer.Player.constructor | src/components/program/ExercisePlayer.jsx:46-63 | all initial state values |
| ExercisePlayer.Player.ExerciseTick | src/components/program/ExercisePlayer.jsx:70-78 | each second while playing adds one to the timer; the rest state; the dialog, the five sliders and the notes are unchanged |
| ExercisePlayer.Player.RestTick | src/components/program/ExercisePlayer.jsx:80-95 | rest counts down; the last second ends the rest and returns to preparation; the timer, play and pause flags; the dialog, the five sliders and the notes are unchanged |
| ExercisePlayer.Player.HandlePlay | src/components/program/ExercisePlayer.jsx:97-104 | plays, unpauses and enters the exercise phase; the timer, the rest state; the dialog, the five sliders and the notes are unchanged |
| ExercisePlayer.Player.HandlePause | src/components/program/ExercisePlayer.jsx:106-111 | sets the paused flag; playing, phase, timer, the rest state; the dialog, the five sliders and the notes are unchanged |
| ExercisePlayer.Player.HandleReset | src/components/program/ExercisePlayer.jsx:113-121 | stops, unpauses and zeroes the timer, back to preparation; the rest state; the dialog, the five sliders and the notes are unchanged |
| ExercisePlayer.Player.HandleCompleteSet | src/components/program/ExercisePlayer.jsx:123-135 | before the last set it starts the rest and stops playing; at the last set it opens the feedback dialog; the timer, the paused flag, the sliders and the notes are unchanged |
| ExercisePlayer.Player.HandleSliderChange | src/components/program/ExercisePlayer.jsx:418-482 | each slider sets exactly its own value to the first element reported; the notes, the clocks, the flags and the dialog are unchanged |
| ExercisePlayer.Player.SetExerciseNotes | src/components/program/ExercisePlayer.jsx:499 | the notes become the typed text; every other field is unchanged |
| ExercisePlayer.Player.FeedbackRecord | src/components/program/ExercisePlayer.jsx:174-192 | feedback reports completion, the sets and reps done, the timer, the five slider values and the notes |
| ExercisePlayer.Player.HandleSubmitFeedback | src/components/program/ExercisePlayer.jsx:174-192 | emits the feedback record and closes the dialog; the clocks, flags, phase, sliders and notes are unchanged |
| ExercisePlayer.FeedbackCarriesInputs | src/components/program/ExercisePlayer.jsx:123-192 | a slider value and notes set before the last set is completed reach the submitted feedback unchanged |
| ExercisePlayer.RestUntilDone | src/components/program/ExercisePlayer.jsx:80-95 | a rest ends after exactly as many ticks as seconds left |
| ExercisePlayer.FormatTimeParses | src/components/program/ExercisePlayer.jsx:194-198 | the `m:ss` display reads back as the seconds, with two-digit seconds |
| ExerciseSessionPlayer.RestDuration | src/components/exercise/SessionPlayer.jsx:95 | the rest is the exercise's duration, 60 s when missing or 0 |
| ExerciseSessionPlayer.ExerciseProgress.constructor | src/components/exercise/SessionPlayer.jsx:50-58 | a fresh progress record |
| ExerciseSessionPlayer.Ids | src/components/exercise/SessionPlayer.jsx:48-60 | the exercise ids in order |
| ExerciseSessionPlayer.CountCompleted | src/components/exercise/SessionPlayer.jsx:136-139 | at most one per exercise |
| ExerciseSessionPlayer.AdherenceScore | src/components/exercise/SessionPlayer.jsx:136-139 | a percentage, 0 for none completed, 100 for all |
| ExerciseSessionPlayer.SnapshotOf | src/components/exercise/SessionPlayer.jsx:117-134 | the progress values per key in order |
| ExerciseSessionPlayer.Player.Snapshot | src/components/exercise/SessionPlayer.jsx:117-134 | one entry per exercise at most |
| ExerciseSessionPlayer.Player.CurrentAdherence | src/components/exercise/SessionPlayer.jsx:136-139 | the current adherence is a percentage |
| ExerciseSessionPlayer.Player.constructor | src/components/exercise/SessionPlayer.jsx:25-60 | starts at the first exercise and set with a fresh record per exercise |
| ExerciseSessionPlayer.Player.CurrentInSnapshot | src/components/exercise/SessionPlayer.jsx:117-134 | the current exercise appears in the snapshot |
| ExerciseSessionPlayer.Player.HandleSetComplete | src/components/exercise/SessionPlayer.jsx:78-100 | writes only `completed_sets` and, at the last set, `completed` of the current record, every other field of it and every other record unchanged; rest follows a non-last set; the last set of a non-last exercise moves on; the last set of the last exercise completes the session |
| ExerciseSessionPlayer.Player.FinalExerciseCounted | src/components/exercise/SessionPlayer.jsx:117-134 | the session results count the final exercise, because records are shared objects |
| ExerciseSessionPlayer.Player.HandleSkipExercise | src/components/exercise/SessionPlayer.jsx:102-115 | writes only `skipped` and `skip_reason` of the current record, every other field and record unchanged, and moves on or completes |
| ExerciseSessionPlayer.Player.HandleRestComplete | src/components/exercise/SessionPlayer.jsx:141-144 | ends the rest and changes nothing else |
| ExerciseSessionPlayer.Player.UpdateExerciseFeedback | src/components/exercise/SessionPlayer.jsx:146-150 | sets one feedback field of the current exercise only |
| ExerciseSessionPlayer.Player.PreviousExercise | src/components/exercise/SessionPlayer.jsx:179 | steps back but not below the first exercise |
| ExerciseSessionPlayer.Player.NextExercise | src/components/exercise/SessionPlayer.jsx:202 | steps forward but not past the last exercise |
| ExerciseSessionPlayer.CountPositive | src/components/exercise/SessionPlayer.jsx:136-139 | one completed entry makes the count positive |
| ProgramSessionPlayer.FindWeek | src/components/program/SessionPlayer.jsx:38-41 | the first week with that number, or none iff no week has it |
| ProgramSessionPlayer.WeekExercisesSelects | src/components/program/SessionPlayer.jsx:38-41 | without a structure or a matching week all exercises run; otherwise the week's exercises |
| ProgramSessionPlayer.InitialProgress | src/components/program/SessionPlayer.jsx:48-58 | one fresh entry per exercise |
| ProgramSessionPlayer.CountCompleted | src/components/program/SessionPlayer.jsx:105-122 | at most one per exercise |
| ProgramSessionPlayer.CompletedData | src/components/program/SessionPlayer.jsx:105-122 | one data item per completed entry |
| ProgramSessionPlayer.SessionRecord | src/components/program/SessionPlayer.jsx:105-122 | the record lists the completed data, a percentage adherence, zero minutes when never started, and nothing when nothing completed |
| ProgramSessionPlayer.Player.constructor | src/components/program/SessionPlayer.jsx:29-35 | starts at the first exercise with fresh progress in preparation |
| ProgramSessionPlayer.Player.HandleStartSession | src/components/program/SessionPlayer.jsx:60-63 | records the start time and activates |
| ProgramSessionPlayer.Player.HandleExerciseComplete | src/components/program/SessionPlayer.jsx:65-87 | marks only the current entry complete with its data, moves on, and at the last one completes the session |
| ProgramSessionPlayer.Player.HandleExerciseSkip | src/components/program/SessionPlayer.jsx:89-103 | marks only the current entry skipped and moves on or completes |
| ProgramSessionPlayer.Player.HandlePreviousExercise | src/components/program/SessionPlayer.jsx:124-128 | steps back but not below the first exercise |
| ProgramSessionPlayer.Player.HandleNextExercise | src/components/program/SessionPlayer.jsx:130-134 | steps forward but not past the last exercise |
| ProgramSessionPlayer.LastCompletionNotCounted | src/components/program/SessionPlayer.jsx:65-122 | completing the last exercise reports from the stale progress, so that completion is not counted |
| ProgramSessionPlayer.ProgressAfterRender | src/components/program/SessionPlayer.jsx:38-58 | each render with a matched week resets the progress |
| ProgramSessionPlayer.CompletionLostOnRender | src/components/program/SessionPlayer.jsx:38-58 | a recorded completion is lost on the next render |
| Dashboard.WelcomeMessage | src/pages/Dashboard.jsx:54-60 | morning before 12, afternoon before 17, evening after, with the first name when there is one |
| Dashboard.GetNextSteps | src/pages/Dashboard.jsx:62-90 | "Begin Screening" iff there is no patient or screening is not completed; "View Providers" iff screened on the `referral` pathway; "Start Session" otherwise |
| Dashboard.NextStepPriority | src/pages/Dashboard.jsx:63-81 | the step is high priority iff screening is pending, medium iff the patient is on the referral pathway, low otherwise |
| Dashboard.CarePathwayLabel | src/pages/Dashboard.jsx:122 | "Not Started" without a pathway; otherwise the first `_` becomes a space |
| Education.FilterResources | src/pages/Education.jsx:323-355 | the four-stage filter chain keeps exactly the resources passing every test, in order |
| Education.FilteredResources | src/pages/Education.jsx:327-352 | the result is a subsequence, and a resource is in it iff it is listed and passes |
| Education.DefaultFiltersKeepAll | src/pages/Education.jsx:323-355 | the initial filters keep everything |
| Education.GenerateRecommendations | src/pages/Education.jsx:296-321 | the first six resources the patient's pathway recommends, in library order: a prefix of the matching list, of length six or all of it when fewer match |
| Education.RecommendationsFor | src/pages/Education.jsx:284-287 | no patient gives no recommendations; otherwise those of the first patient |
| Education.BuildLookup | src/pages/Education.jsx:407-410 | the loop builds exactly `LookupOf` |
| Education.LookupLastWins | src/pages/Education.jsx:407-410 | each key holds the last engagement with that id |
| Education.ViewWrite | src/pages/Education.jsx:377-389 | a view updates the existing engagement with the count plus one, or creates one with count 1 |
| Education.LikeWriteAsWritten | src/pages/Education.jsx:390-402 | the stored engagement is spread after the toggle |
| Education.LikeNeverUnlikes | src/pages/Education.jsx:390-402 | as written, a liked resource stays liked after the like button |
| Education.LikeWrite | src/pages/Education.jsx:390-402 | the corrected write sends the toggled value |
| Education.LikeTwiceRestores | src/pages/Education.jsx:390-402 | two corrected likes restore the liked state |
| Education.BodyRegionsFlattened | src/pages/Education.jsx:418 | a region is in the flattened list iff some resource lists it |
| Education.UniqueBodyRegions | src/pages/Education.jsx:418 | no duplicates, and exactly the listed regions |
| Education.UniqueKinds | src/pages/Education.jsx:419 | no duplicates, and exactly the resource types |
| Education.UniqueDifficulties | src/pages/Education.jsx:420 | no duplicates, and exactly the present levels |
| Education.UniqueBodyRegionsOrder | src/pages/Education.jsx:418 | regions are listed in the order each first appears |
| Education.UniqueKindsOrder | src/pages/Education.jsx:419 | resource types are listed in the order each first appears |
| Education.UniqueDifficultiesOrder | src/pages/Education.jsx:420 | difficulty levels are listed in the order each first appears |
| Providers.FilterProviders | src/pages/Providers.jsx:237-265 | the filter chain keeps exactly the passing providers, in order |
| Providers.FilteredProviders | src/pages/Providers.jsx:241-262 | a subsequence whose members are exactly the passing providers; the defaults keep all |
| Providers.UniqueRegions | src/pages/Providers.jsx:272 | distinct non-empty regions, each of some provider |
| Providers.UniqueRegionsOrder | src/pages/Providers.jsx:272 | in order of first appearance |
| Providers.CandidateMembership | src/pages/Providers.jsx:273-278 | a value is a candidate iff it is some provider's type or specialization |
| Providers.UniqueSpecialties | src/pages/Providers.jsx:273-278 | distinct non-empty values, each offered by some provider, starting with the types |
| Providers.UniqueSpecialtiesOrder | src/pages/Providers.jsx:273-278 | types and specializations in order of first appearance among the candidates |
| Providers.ProviderTypeLabel | src/pages/Providers.jsx:70-83 | the label of each of the eight known types; any other type with its first `_` turned into a space |
| Providers.SpecializationBadges | src/pages/Providers.jsx:113-129 | the first three specializations and "+n more" for the rest |
| ExerciseLibrary.FilteredExercises | src/components/program/ExerciseLibrary.jsx:21-26 | a subsequence, with an exercise kept iff the search and category match |
| ExerciseLibrary.ContainsEmpty | src/components/program/ExerciseLibrary.jsx:21-26 | every string contains `""` |
| ExerciseLibrary.EmptySearchKeepsCategory | src/components/program/ExerciseLibrary.jsx:21-26 | an empty search keeps exactly the category filter |
| ExerciseLibrary.Categories | src/components/program/ExerciseLibrary.jsx:28 | distinct, exactly the present categories |
| ExerciseLibrary.CategoriesOrder | src/components/program/ExerciseLibrary.jsx:28 | categories are listed in the order each first appears |
| ExerciseLibrary.CategoryIcon | src/components/program/ExerciseLibrary.jsx:30-40 | the icon for known categories, else the default |
| ExerciseLibrary.CategoryColor | src/components/program/ExerciseLibrary.jsx:42-52 | the colour for known categories, else the default |
| ExerciseLibrary.LookupsAgree | src/components/program/ExerciseLibrary.jsx:30-52 | both tables know the same categories |
| ExerciseLibrary.MuscleBadges | src/components/program/ExerciseLibrary.jsx:170-179 | first three muscles and "+n" |
| ExerciseLibrary.EquipmentShown | src/components/program/ExerciseLibrary.jsx:185 | shown iff listed and the first item is not "none" |
| TodaysWorkout.DatePart | src/components/program/TodaysWorkout.jsx:59-64 | the date before the `T` |
| TodaysWorkout.AnySessionOn | src/components/program/TodaysWorkout.jsx:59-64 | true iff some record is on that date |
| TodaysWorkout.HasCompletedToday | src/components/program/TodaysWorkout.jsx:59-64 | false without progress, else whether some session is today |
| TodaysWorkout.TodaysWorkoutView | src/components/program/TodaysWorkout.jsx:71-171 | the assessment prompt off program; otherwise the card, disabled and "Completed" iff done today |
| TodaysWorkout.CategoryLetter | src/components/program/TodaysWorkout.jsx:134-140 | M, S or F by category |
| ProgramOverview.OrDefault | src/components/program/ProgramOverview.jsx:33-35 | the value when truthy, else the default |
| ProgramOverview.Overview | src/components/program/ProgramOverview.jsx:15-36 | none iff no program; otherwise the stats with defaults of 8 weeks and 3 sessions |
| ProgramOverview.ProgressPercentage | src/components/program/ProgramOverview.jsx:38 | the current week as a percentage of the weeks |
| ProgramOverview.PercentageRange | src/components/program/ProgramOverview.jsx:38 | in (0, 100] for at least three weeks; 37.5 by default |
| ProgramOverview.ExerciseCount | src/components/program/ProgramOverview.jsx:130 | the count, 0 when absent |
| ProgramPage.FirstOrNull | src/pages/Program.jsx:43-45 | the first element, or none for an empty list |
| ProgramPage.AveragePain | src/pages/Program.jsx:154-156 | a rounded mean, on the pain scale |
| ProgramPage.AverageAdherence | src/pages/Program.jsx:170-172 | a rounded mean percentage |
| ProgramPage.PainsOnScale | src/pages/Program.jsx:154-156 | pains on the scale average on the scale |
| ProgramPage.AdherencesArePercent | src/pages/Program.jsx:170-172 | percentages average to a percentage |
| ProgramPage.RenderActiveTab | src/pages/Program.jsx:92-105 | each tab name selects its view, anything else today's |
| ProgramPage.RenderProgram | src/pages/Program.jsx:67-90 | the assessment prompt iff the first patient has not completed screening; otherwise the selected tab with both averages |
| SessionPreparation.Seconds | src/components/exercise/SessionPreparation.jsx:18-19 | one time per exercise |
| SessionPreparation.EstimatedDuration | src/components/exercise/SessionPreparation.jsx:18-19 | the explicit duration when non-zero, else the seconds over 60 |
| SessionPreparation.DisplayedMinutes | src/components/exercise/SessionPreparation.jsx:65 | within half a minute of the estimate |
| SessionPreparation.RoundingWithinHalf | src/components/exercise/SessionPreparation.jsx:65 | `Math.round` is within a half |
| SessionPreparation.EmptySessionTakesNoTime | src/components/exercise/SessionPreparation.jsx:18-19 | no exercises and no duration take zero minutes |
| ExerciseSessionPage.SelectSession | src/pages/ExerciseSession.jsx:27 | the matching session, else the first, else none |
| ExerciseSessionPage.FindSession | src/pages/ExerciseSession.jsx:27 | the first session with that id |
| ExerciseSessionPage.FindExercise | src/pages/ExerciseSession.jsx:34-40 | the first library exercise with that id |
| ExerciseSessionPage.Merge | src/pages/ExerciseSession.jsx:34-40 | library fields overridden by the session entry; a missing exercise contributes nothing |
| ExerciseSessionPage.SessionExercises | src/pages/ExerciseSession.jsx:34-40 | one merged record per entry |
| ExerciseSessionPage.Page.constructor | src/pages/ExerciseSession.jsx:15 | starts in preparation with nothing loaded |
| ExerciseSessionPage.Page.Load | src/pages/ExerciseSession.jsx:29-41 | loads the selected session and its merged exercises; sets nothing without sessions; keeps the phase |
| ExerciseSessionPage.Page.HandleStartSession | src/pages/ExerciseSession.jsx:54-57 | the active phase |
| ExerciseSessionPage.Page.HandleCompleteSession | src/pages/ExerciseSession.jsx:58-62 | the completion phase |
| ExerciseSessionPage.Page.Render | src/pages/ExerciseSession.jsx:89-139 | not found iff no session or no exercises; otherwise the phase's view |
| ExerciseSessionPage.StartThenComplete | src/pages/ExerciseSession.jsx:54-62 | start then complete shows the completion view |
| SupportModal.SuggestionsFor | src/components/support/SupportModal.jsx:47-97 | the context's suggestions, none for an unknown context |
| SupportModal.PriorityOf | src/components/support/SupportModal.jsx:114 | urgent iff the request type is `urgent_medical`, medium otherwise |
| SupportModal.SupportForm.constructor | src/components/support/SupportModal.jsx:24-36 | an empty form for the context and user |
| SupportModal.SupportForm.SetRequestType | src/components/support/SupportModal.jsx:214 | sets only the type |
| SupportModal.SupportForm.SetSubject | src/components/support/SupportModal.jsx:236 | sets only the subject |
| SupportModal.SupportForm.SetMessage | src/components/support/SupportModal.jsx:246 | sets only the message |
| SupportModal.SupportForm.RequestOf | src/components/support/SupportModal.jsx:105-117 | the request carries the form fields and the priority |
| SupportModal.SupportForm.HandleSubmitRequest | src/components/support/SupportModal.jsx:99-130 | an incomplete form sends nothing; success resets and closes; failure keeps the fields; never left submitting |
| SupportModal.SubmitTwice | src/components/support/SupportModal.jsx:99-130 | after a successful send the next submission sends nothing |

## Left out

- Rendering, CSS classes, icons, animations, dialogs, alerts, toasts and navigation are not modelled, apart from the values the components compute for display.
- Persistence: the entity calls (`Patient`, `ScreeningAssessment`, `ExerciseProgress`, `ResourceEngagement`, `SupportRequest`, `User.me`) are not modelled as code. Each call's outcome is a parameter, or its record is returned. The asynchronous loading effects and the `isLoading` flags are left out.
- The clock (`new Date()`, `Date.now()`), time zones and `toLocaleDateString` are parameters. Date strings are taken as given.
- Floating point: `pct`, progress-bar widths and the tenths average are modelled with `real` or integer arithmetic. Rounding of JavaScript doubles is not modelled.
- BodyChart.GetMousePosition: the division by the SVG's transform matrix, `(clientX - ctm.e) / ctm.a` and `(clientY - ctm.f) / ctm.d`, is floating point and is not modelled. The model takes the already-mapped point as an integer parameter and keeps only the null guards.
- ExerciseSessionPlayer.Player.Keys: `Object.keys(exerciseProgress)` is modelled as the ids in order of first appearance. JavaScript lists integer-like keys first, in ascending numeric order, so ids "10" and "2" come out as "2", "10". The order of the `exercises` list in the emitted results (ExerciseSessionPlayer.SnapshotOf) is therefore not modelled for integer-like ids; the completed count and the adherence score do not depend on it.
- ProgressOverview.WeekLabel: a session's `week_number` is either a number or absent. A `null` week number, which JavaScript prints as "Week null", is not distinguished from an absent one, printed "Week undefined".
- Js.Get: the `length` property and properties inherited from a prototype are not modelled.
- Js.ToNumber: a non-empty string is decoded only when it is an optionally signed run of decimal digits. Every other non-empty string, and every non-empty array, converts to NaN. JavaScript's full `Number` grammar is not modelled.
- A missing `sets` or `rest_duration` in the preparation estimate is not represented: both are integer fields of the model. The code computes NaN there.
- An absent provider region or provider type is modelled as `""`. Strict equality `===` on JSON values is modelled as structural equality. Keys inherited from `Object.prototype` in the lookup tables are not modelled.
- ProgressOverview.SummaryOf: an empty bucket summarises to zeros, where the code would divide by zero and get NaN. No listed week has an empty bucket (ProgressOverview.BucketNonEmpty), so the case does not arise.
- ProgramSessionPlayer.Player.constructor: requires a non-empty week list. The code renders nothing useful for an empty one.
- The fixed sample data of the program page's `getTodaysSession` is not modelled. ExerciseSession's `updateSessionProgress` only logs, so it is left out. The model keeps the phase when the session id changes, as the code does.
- `src/components/screening/Results.jsx`, `SymptomAssessment.jsx`, `PersonalInfo.jsx` and the other presentational components are not part of this model.
- Two behaviours are modelled as the code has them, not as a reader might expect:
  - `handleNext` moves from step 6 to the results step 7 without submitting.
  - The worst pain over no areas is `Math.max()` = -Infinity, and over an area without a worst pain it is NaN. Both give self-management and low risk.
- Js.Chars: a string is a sequence of Unicode characters, so spreading a string gives one key per character. JavaScript indexes UTF-16 code units, so a character outside the Basic Multilingual Plane (an emoji, say) gives two keys there.
- Text.Lower: `toLowerCase()` is modelled on ASCII letters only. JavaScript also folds non-ASCII letters, so filters and searches that lower-case are not modelled for text with non-ASCII capitals.

## Findings

| source | as written | input that shows it | evidently intended | confidence | as-written member | corrected member |
|---|---|---|---|---|---|---|
| src/components/program/SessionPlayer.jsx:38-58 | the initialising effect depends on `weekExercises`; when a week matches, that is a new `filter()` array on every render, so the effect resets `sessionProgress` after every state change (with no matching week it is the stable `program.exercises`) | a one-exercise week: complete it, and the next render clears the recorded completion | initialise progress once per week | not executed | ProgramSessionPlayer.CompletionLostOnRender | ProgramSessionPlayer.Player.HandleExerciseComplete |
| src/pages/Education.jsx:390-402 | the like write spreads the stored engagement after the toggled `liked`, so the stored value wins | an engagement with `liked: true`; pressing like sends `liked: true` again | pressing like toggles the stored value | not executed | Education.LikeNeverUnlikes | Education.LikeWrite |
| src/pages/Screening.jsx:172 | the wizard passes the red-flag slice as `data`, and the screen reads `data.redFlags` from it, which is undefined | any answer: the switch stays off, no warning shows, and the next edit stores a map with only that answer | the screen edits the slice it is given | not executed | RedFlagScreen.WiredScreenForgets | RedFlagScreen.SliceScreenKeepsAnswers |
| src/components/screening/ValidatedScales.jsx:129 | the wizard passes the scales slice as `data` (src/pages/Screening.jsx:172), and the component reads `data.scales` from it, which is undefined, so PSFS and both questionnaires work on `{}` | answer a FABQ question: the radio group stays empty, and the stored slice holds that answer alone, losing the PSFS items and earlier answers | the component edits the slice it is given, `data \|\| {}` | not executed | ValidatedScales.WiredScalesForget | ValidatedScales.SliceScalesKeepAnswers |
