/** One exercise of a program session, src/components/program/ExercisePlayer.jsx:
    play, pause and reset, a set counter that starts rests, two one-second
    ticks and the feedback record handed back on completion. */
module ExercisePlayer {
  import opened Js
  import opened Text

  /** The exercise fields the player reads. */
  datatype ExerciseSpec = ExerciseSpec(id: string, name: string, initialSets: int,
                                       restTimeSeconds: Option<int>)

  const DEFAULT_REST_SECONDS: int := 30

  /** `rest_time_seconds || 30`. */
  function RestSeconds(e: ExerciseSpec): (r: int)
    ensures e.restTimeSeconds.Some? && e.restTimeSeconds.value != 0 ==> r == e.restTimeSeconds.value
    ensures e.restTimeSeconds.None? || e.restTimeSeconds == Some(0) ==> r == DEFAULT_REST_SECONDS
  {
    match e.restTimeSeconds
    case Some(t) => if t != 0 then t else DEFAULT_REST_SECONDS
    case None => DEFAULT_REST_SECONDS
  }

  datatype Phase = Preparation | Exercising | Rest | Complete

  /** The five feedback sliders. */
  datatype Slider = PainBefore | PainAfter | Tension | Effort | Difficulty

  /** What onComplete receives. */
  datatype Feedback = Feedback(
    exerciseId: string, exerciseName: string, setsCompleted: int, repsCompleted: string,
    actualDurationSeconds: int, difficultyRating: int, painLevelBefore: int,
    painLevelAfter: int, tensionLevel: int, effortLevel: int, completed: bool, notes: string)

  /** What the feedback dialog has collected: the five sliders and the notes. */
  datatype FeedbackInputs = FeedbackInputs(painBefore: int, painAfter: int, tensionLevel: int,
                                           effortLevel: int, difficultyRating: int, notes: string)

  class Player {
    const exercise: ExerciseSpec
    const currentSet: int
    const currentRep: int
    var isPlaying: bool
    var isPaused: bool
    var timer: int
    var isResting: bool
    var restTimer: int
    var exercisePhase: Phase
    var showFeedbackDialog: bool
    var painBefore: int
    var painAfter: int
    var tensionLevel: int
    var effortLevel: int
    var difficultyRating: int
    var exerciseNotes: string

    /** The exercise clock never runs below 0. */
    ghost predicate Valid()
      reads this
    {
      timer >= 0
    }

    constructor (exercise: ExerciseSpec, currentSet: int, currentRep: int)
      ensures Valid()
      ensures this.exercise == exercise && this.currentSet == currentSet && this.currentRep == currentRep
      ensures !isPlaying && !isPaused && timer == 0 && !isResting && restTimer == 0
      ensures exercisePhase == Preparation && !showFeedbackDialog
      ensures painBefore == 0 && painAfter == 0 && tensionLevel == 0 && effortLevel == 0
      ensures difficultyRating == 5 && exerciseNotes == ""
    {
      this.exercise := exercise;
      this.currentSet := currentSet;
      this.currentRep := currentRep;
      isPlaying, isPaused, timer, isResting, restTimer := false, false, 0, false, 0;
      exercisePhase, showFeedbackDialog := Preparation, false;
      painBefore, painAfter, tensionLevel, effortLevel := 0, 0, 0, 0;
      difficultyRating, exerciseNotes := 5, "";
    }

    /** The dialog's inputs as they stand. */
    function Inputs(): FeedbackInputs
      reads this
    {
      FeedbackInputs(painBefore, painAfter, tensionLevel, effortLevel, difficultyRating, exerciseNotes)
    }

    /** The exercise clock's interval runs only while playing, not paused,
        in the exercise phase. */
    predicate ExerciseClockRuns()
      reads this
    {
      isPlaying && !isPaused && exercisePhase == Exercising
    }

    /** The rest countdown's interval runs only while resting with time left. */
    predicate RestClockRuns()
      reads this
    {
      isResting && restTimer > 0
    }

    /** One second of exercise. */
    method ExerciseTick()
      requires Valid() && ExerciseClockRuns()
      modifies this
      ensures Valid() && timer == old(timer) + 1
      ensures isPlaying && !isPaused && exercisePhase == Exercising
      ensures isResting == old(isResting) && restTimer == old(restTimer)
      ensures showFeedbackDialog == old(showFeedbackDialog) && Inputs() == old(Inputs())
    {
      timer := timer + 1;
    }

    /** One second of rest: at 1 the rest ends and the phase returns to
        preparation; otherwise the countdown goes down by 1. */
    method RestTick()
      requires Valid() && RestClockRuns()
      modifies this
      ensures Valid() && timer == old(timer) && isPlaying == old(isPlaying)
      ensures old(restTimer) <= 1 ==> restTimer == 0 && !isResting && exercisePhase == Preparation
      ensures old(restTimer) > 1 ==>
        restTimer == old(restTimer) - 1 && isResting && exercisePhase == old(exercisePhase)
      ensures restTimer >= 0
      ensures isPaused == old(isPaused) && showFeedbackDialog == old(showFeedbackDialog)
      ensures Inputs() == old(Inputs())
    {
      if restTimer <= 1 {
        isResting := false;
        exercisePhase := Preparation;
        restTimer := 0;
      } else {
        restTimer := restTimer - 1;
      }
    }

    /** handlePlay */
    method HandlePlay()
      requires Valid()
      modifies this
      ensures Valid() && isPlaying && !isPaused && exercisePhase == Exercising
      ensures timer == old(timer) && isResting == old(isResting) && restTimer == old(restTimer)
      ensures showFeedbackDialog == old(showFeedbackDialog) && Inputs() == old(Inputs())
    {
      isPlaying := true;
      isPaused := false;
      exercisePhase := Exercising;
    }

    /** handlePause: only the paused flag changes. */
    method HandlePause()
      requires Valid()
      modifies this
      ensures Valid() && isPaused && isPlaying == old(isPlaying)
      ensures exercisePhase == old(exercisePhase) && timer == old(timer)
      ensures isResting == old(isResting) && restTimer == old(restTimer)
      ensures showFeedbackDialog == old(showFeedbackDialog) && Inputs() == old(Inputs())
    {
      isPaused := true;
    }

    /** handleReset */
    method HandleReset()
      requires Valid()
      modifies this
      ensures Valid() && !isPlaying && !isPaused && timer == 0 && exercisePhase == Preparation
      ensures isResting == old(isResting) && restTimer == old(restTimer)
      ensures showFeedbackDialog == old(showFeedbackDialog) && Inputs() == old(Inputs())
    {
      isPlaying := false;
      isPaused := false;
      timer := 0;
      exercisePhase := Preparation;
    }

    /** handleCompleteSet: before the exercise's last set a rest starts and
        playing stops; otherwise the feedback dialog opens. */
    method HandleCompleteSet()
      requires Valid()
      modifies this
      ensures Valid() && timer == old(timer)
      ensures currentSet < exercise.initialSets ==>
        isResting && restTimer == RestSeconds(exercise) && exercisePhase == Rest && !isPlaying
        && showFeedbackDialog == old(showFeedbackDialog)
      ensures currentSet >= exercise.initialSets ==>
        showFeedbackDialog && exercisePhase == Complete && isPlaying == old(isPlaying)
        && isResting == old(isResting) && restTimer == old(restTimer)
      ensures isPaused == old(isPaused) && Inputs() == old(Inputs())
    {
      if currentSet < exercise.initialSets {
        isResting := true;
        restTimer := RestSeconds(exercise);
        exercisePhase := Rest;
        isPlaying := false;
      } else {
        showFeedbackDialog := true;
        exercisePhase := Complete;
      }
    }

    /** A feedback slider reports a list; its first element is stored. */
    method HandleSliderChange(slider: Slider, value: seq<int>)
      requires Valid() && |value| >= 1
      modifies this
      ensures Valid()
      ensures painBefore == (if slider == PainBefore then value[0] else old(painBefore))
      ensures painAfter == (if slider == PainAfter then value[0] else old(painAfter))
      ensures tensionLevel == (if slider == Tension then value[0] else old(tensionLevel))
      ensures effortLevel == (if slider == Effort then value[0] else old(effortLevel))
      ensures difficultyRating == (if slider == Difficulty then value[0] else old(difficultyRating))
      ensures exerciseNotes == old(exerciseNotes)
      ensures timer == old(timer) && exercisePhase == old(exercisePhase)
      ensures isPlaying == old(isPlaying) && isPaused == old(isPaused)
      ensures isResting == old(isResting) && restTimer == old(restTimer)
      ensures showFeedbackDialog == old(showFeedbackDialog)
    {
      match slider
      case PainBefore => painBefore := value[0];
      case PainAfter => painAfter := value[0];
      case Tension => tensionLevel := value[0];
      case Effort => effortLevel := value[0];
      case Difficulty => difficultyRating := value[0];
    }

    /** The notes textarea stores what was typed. */
    method SetExerciseNotes(text: string)
      requires Valid()
      modifies this
      ensures Valid() && exerciseNotes == text
      ensures Inputs() == old(Inputs()).(notes := text)
      ensures timer == old(timer) && exercisePhase == old(exercisePhase)
      ensures isPlaying == old(isPlaying) && isPaused == old(isPaused)
      ensures isResting == old(isResting) && restTimer == old(restTimer)
      ensures showFeedbackDialog == old(showFeedbackDialog)
    {
      exerciseNotes := text;
    }

    /** The current feedback, as handleSubmitFeedback builds it. */
    function FeedbackRecord(): (r: Feedback)
      reads this
      ensures r.completed && r.setsCompleted == currentSet
      ensures ToNumber(Str(r.repsCompleted)) == Val(currentRep)
      ensures r.actualDurationSeconds == timer
      ensures r.painLevelBefore == painBefore && r.painLevelAfter == painAfter
      ensures r.tensionLevel == tensionLevel && r.effortLevel == effortLevel
      ensures r.difficultyRating == difficultyRating && r.notes == exerciseNotes
    {
      IntToStringNumber(currentRep);
      Feedback(exercise.id, exercise.name, currentSet, IntToString(currentRep), timer,
               difficultyRating, painBefore, painAfter, tensionLevel, effortLevel, true, exerciseNotes)
    }

    /** handleSubmitFeedback: the record goes to onComplete and the dialog closes. */
    method HandleSubmitFeedback() returns (feedback: Feedback)
      requires Valid()
      modifies this
      ensures Valid() && feedback == old(FeedbackRecord()) && !showFeedbackDialog
      ensures timer == old(timer) && exercisePhase == old(exercisePhase)
      ensures isPlaying == old(isPlaying) && isPaused == old(isPaused)
      ensures isResting == old(isResting) && restTimer == old(restTimer)
      ensures Inputs() == old(Inputs())
    {
      feedback := FeedbackRecord();
      showFeedbackDialog := false;
    }

    /** The Complete Set button is disabled during a rest. */
    predicate CompleteSetDisabled()
      reads this
    {
      exercisePhase == Rest
    }
  }

  /** A rest of k seconds ends after exactly k ticks, back in preparation. */
  method RestUntilDone(p: Player) returns (ticks: nat)
    requires p.Valid() && p.RestClockRuns()
    modifies p
    ensures ticks == old(p.restTimer)
    ensures p.Valid() && !p.isResting && p.restTimer == 0 && p.exercisePhase == Preparation
  {
    ticks := 0;
    while p.isResting
      invariant p.Valid() && p.restTimer >= 0
      invariant p.isResting ==> p.restTimer > 0 && ticks + p.restTimer == old(p.restTimer)
      invariant !p.isResting ==> ticks == old(p.restTimer) && p.restTimer == 0 && p.exercisePhase == Preparation
      decreases p.restTimer, p.isResting
    {
      p.RestTick();
      ticks := ticks + 1;
    }
  }

  /** The inputs set in the dialog are the ones onComplete receives: a slider
      moved and notes typed before the last set is completed reach the
      feedback record unchanged. */
  method FeedbackCarriesInputs(p: Player, slider: Slider, value: int, notes: string)
      returns (feedback: Feedback)
    requires p.Valid() && p.currentSet >= p.exercise.initialSets
    modifies p
    ensures feedback.notes == notes && !p.showFeedbackDialog
    ensures slider == PainAfter ==> feedback.painLevelAfter == value
    ensures slider == PainBefore ==> feedback.painLevelBefore == value
    ensures slider == Tension ==> feedback.tensionLevel == value
    ensures slider == Effort ==> feedback.effortLevel == value
    ensures slider == Difficulty ==> feedback.difficultyRating == value
  {
    p.HandleSliderChange(slider, [value]);
    p.SetExerciseNotes(notes);
    p.HandleCompleteSet();
    feedback := p.HandleSubmitFeedback();
  }

  /** formatTime: whole minutes unpadded, ":", then seconds padded to two digits. */
  function FormatTime(seconds: nat): string {
    NatToString(seconds / 60) + ":" + PadStart(NatToString(seconds % 60), 2, '0')
  }

  /** The seconds part is always two digits, and the display reads back as
      the seconds it shows. */
  lemma FormatTimeParses(seconds: nat)
    ensures ParseClock(FormatTime(seconds)) == seconds
    ensures |PadStart(NatToString(seconds % 60), 2, '0')| == 2
  {
    var m, s := seconds / 60, seconds % 60;
    NoColonInDigits(m, 0);
    ClockParses(NatToString(m), PadStart(NatToString(s), 2, '0'));
    PaddedParses(m, 0, 10);
    PaddedParses(s, 2, 10);
    AtMostTwoDigits(s, 10);
  }
}
