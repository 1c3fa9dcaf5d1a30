/** The countdown of src/components/exercise/ExerciseTimer.jsx, one interval
    callback at a time. */
module ExerciseTimer {
  import opened Text

  class Timer {
    var duration: int
    var timeLeft: int
    var isRunning: bool
    var isComplete: bool

    /** The state on mount: the full duration, running iff `autoStart`. */
    constructor (duration: int, autoStart: bool)
      ensures this.duration == duration && timeLeft == duration
      ensures isRunning == autoStart && !isComplete
    {
      this.duration := duration;
      timeLeft := duration;
      isRunning := autoStart;
      isComplete := false;
    }

    /** The interval exists only while running with time left. */
    predicate Ticking()
      reads this
    {
      isRunning && timeLeft > 0
    }

    /** One interval callback. At 1 (or less) the count lands on 0, the timer
        stops, completes and reports completion; otherwise it goes down by 1. */
    method Tick() returns (completed: bool)
      requires Ticking()
      modifies this
      ensures old(timeLeft) <= 1 ==> timeLeft == 0 && !isRunning && isComplete && completed
      ensures old(timeLeft) > 1 ==>
        timeLeft == old(timeLeft) - 1 && isRunning && isComplete == old(isComplete) && !completed
      ensures timeLeft >= 0 && duration == old(duration)
    {
      if timeLeft <= 1 {
        isRunning := false;
        isComplete := true;
        timeLeft := 0;
        completed := true;
      } else {
        timeLeft := timeLeft - 1;
        completed := false;
      }
    }

    /** handleStart */
    method HandleStart()
      modifies this
      ensures isRunning && timeLeft == old(timeLeft) && isComplete == old(isComplete)
      ensures duration == old(duration)
    {
      isRunning := true;
    }

    /** handlePause */
    method HandlePause()
      modifies this
      ensures !isRunning && timeLeft == old(timeLeft) && isComplete == old(isComplete)
      ensures duration == old(duration)
    {
      isRunning := false;
    }

    /** handleReset: back to the full duration, stopped, not complete. */
    method HandleReset()
      modifies this
      ensures timeLeft == duration && !isRunning && !isComplete && duration == old(duration)
    {
      timeLeft := duration;
      isRunning := false;
      isComplete := false;
    }

    /** The effect on a new `duration` prop: the count restarts from it and
        completion clears; running is kept. */
    method SetDuration(newDuration: int)
      modifies this
      ensures duration == newDuration && timeLeft == newDuration && !isComplete
      ensures isRunning == old(isRunning)
    {
      duration := newDuration;
      timeLeft := newDuration;
      isComplete := false;
    }

    /** The start button is disabled when no time is left. */
    predicate StartDisabled()
      reads this
    {
      timeLeft == 0
    }

    /** "Start" before any second has gone, "Resume" after. */
    function StartLabel(): (r: string)
      reads this
      ensures r == "Start" <==> timeLeft == duration
      ensures r == "Resume" <==> timeLeft != duration
    {
      if timeLeft == duration then "Start" else "Resume"
    }
  }

  /** A running timer reaches 0 in exactly `timeLeft` ticks and completes on
      the last one. */
  method RunDown(t: Timer) returns (ticks: nat)
    requires t.Ticking()
    modifies t
    ensures ticks == old(t.timeLeft)
    ensures t.timeLeft == 0 && !t.isRunning && t.isComplete
  {
    ticks := 0;
    var done := false;
    while !done
      invariant done ==> t.timeLeft == 0 && !t.isRunning && t.isComplete
      invariant !done ==> t.Ticking()
      invariant ticks + t.timeLeft == old(t.timeLeft) || (done && ticks == old(t.timeLeft))
      decreases if done then 0 else t.timeLeft
    {
      done := t.Tick();
      ticks := ticks + 1;
    }
  }

  /** formatTime: minutes and seconds, each padded to two digits, "mm:ss". */
  function FormatTime(seconds: nat): string {
    PadStart(NatToString(seconds / 60), 2, '0') + ":" + PadStart(NatToString(seconds % 60), 2, '0')
  }

  /** Below 100 minutes the display is exactly "mm:ss". */
  lemma FormatTimeWidth(seconds: nat)
    requires seconds < 6000
    ensures |FormatTime(seconds)| == 5 && FormatTime(seconds)[2] == ':'
  {
    AtMostTwoDigits(seconds / 60, 10);
    AtMostTwoDigits(seconds % 60, 10);
  }

  /** The display reads back as the seconds it shows. */
  lemma FormatTimeParses(seconds: nat)
    ensures ParseClock(FormatTime(seconds)) == seconds
  {
    var m, s := seconds / 60, seconds % 60;
    NoColonInDigits(m, 2);
    ClockParses(PadStart(NatToString(m), 2, '0'), PadStart(NatToString(s), 2, '0'));
    PaddedParses(m, 2, 10);
    PaddedParses(s, 2, 10);
  }
}
