/**
 * The mobile Pomodoro screen: a 25-minute work period and a 5-minute break
 * that alternate. While running, an interval takes one second off the
 * clock; the tick that would reach zero instead stops the timer, switches
 * between work and break and loads the new period's full length.
 */
module PomodoroScreen {
  import Clock
  import JsText

  /** `WORK_DURATION` or `BREAK_DURATION`, in seconds. */
  function ModeDuration(isWork: bool): (seconds: int)
    ensures 0 < seconds < 6000
    ensures isWork ==> seconds == 25 * 60
    ensures !isWork ==> seconds == 5 * 60
  {
    if isWork then 25 * 60 else 5 * 60
  }

  /** The screen's three state variables. */
  datatype Timer = Timer(seconds: int, isRunning: bool, isWork: bool)

  /**
   * One firing of the interval, which is armed only while running: at one
   * second left the timer stops, the mode flips and the new mode's full
   * length is loaded; otherwise one second goes.
   */
  function Step(t: Timer): (r: Timer)
    ensures t.isRunning && t.seconds == 1 ==> r == Timer(ModeDuration(!t.isWork), false, !t.isWork)
    ensures t.isRunning && t.seconds != 1 ==> r == t.(seconds := t.seconds - 1)
    ensures !t.isRunning ==> r == t
  {
    if !t.isRunning then t
    else if t.seconds == 1 then Timer(if t.isWork then 5 * 60 else 25 * 60, false, !t.isWork)
    else t.(seconds := t.seconds - 1)
  }

  /** `n` firings in a row. */
  function Steps(t: Timer, n: nat): Timer
    decreases n
  {
    if n == 0 then t else Steps(Step(t), n - 1)
  }

  /** A running timer counts down one second per firing while more than one second is left. */
  lemma {:induction false} CountsDown(t: Timer, n: nat)
    requires t.isRunning && n < t.seconds
    ensures Steps(t, n) == t.(seconds := t.seconds - n)
    decreases n
  {
    if n > 0 {
      CountsDown(Step(t), n - 1);
    }
  }

  /**
   * From `s` seconds left, exactly `s` firings finish the period: the timer
   * is stopped in the other mode with that mode's full length loaded.
   */
  lemma PeriodEnds(t: Timer)
    requires t.isRunning && t.seconds >= 1
    ensures Steps(t, t.seconds) == Timer(ModeDuration(!t.isWork), false, !t.isWork)
  {
    var n := t.seconds - 1;
    CountsDown(t, n);
    StepsSplit(t, n, 1);
  }

  lemma {:induction false} StepsSplit(t: Timer, m: nat, n: nat)
    ensures Steps(t, m + n) == Steps(Steps(t, m), n)
    decreases m
  {
    if m > 0 {
      StepsSplit(Step(t), m - 1, n);
    }
  }

  /** Two finished periods in a row bring the timer back to the mode it started in. */
  lemma TwoPeriodsReturn(t: Timer)
    requires t.isRunning && t.seconds >= 1
    ensures var a := Steps(t, t.seconds);
      var b := Steps(a.(isRunning := true), ModeDuration(!t.isWork));
      b.isWork == t.isWork && b.seconds == ModeDuration(t.isWork) && !b.isRunning
  {
    PeriodEnds(t);
    var a := Steps(t, t.seconds);
    PeriodEnds(a.(isRunning := true));
  }

  class PomodoroScreenView {
    var seconds: int
    var isRunning: bool
    var isWork: bool

    function State(): Timer
      reads this
    {
      Timer(seconds, isRunning, isWork)
    }

    /** The clock is never below one second nor above the current mode's full length. */
    ghost predicate Valid()
      reads this
    {
      1 <= seconds <= ModeDuration(isWork)
    }

    /** A stopped work period at full length. */
    constructor ()
      ensures Valid() && seconds == 25 * 60 && !isRunning && isWork
    {
      seconds := 25 * 60;
      isRunning := false;
      isWork := true;
    }

    /** The interval firing. */
    method Tick()
      requires Valid()
      modifies this
      ensures Valid() && State() == Step(old(State()))
    {
      if isRunning {
        if seconds == 1 {
          isRunning := false;
          isWork := !isWork;
          seconds := if isWork then 25 * 60 else 5 * 60;
        } else {
          seconds := seconds - 1;
        }
      }
    }

    /** `start`: only the running flag changes. */
    method Start()
      requires Valid()
      modifies this
      ensures Valid() && isRunning && seconds == old(seconds) && isWork == old(isWork)
    {
      isRunning := true;
    }

    /** `pause`: only the running flag changes. */
    method Pause()
      requires Valid()
      modifies this
      ensures Valid() && !isRunning && seconds == old(seconds) && isWork == old(isWork)
    {
      isRunning := false;
    }

    /** `reset`: stopped, at the current mode's full length; the mode is kept. */
    method Reset()
      requires Valid()
      modifies this
      ensures Valid() && !isRunning && seconds == ModeDuration(isWork) && isWork == old(isWork)
    {
      isRunning := false;
      seconds := if isWork then 25 * 60 else 5 * 60;
    }

    /** `formatTime(seconds)`: always "MM:SS", reading back as the minutes and seconds left. */
    function Display(): (r: string)
      requires Valid()
      reads this
      ensures |r| == 5 && r[2] == ':'
      ensures JsText.ParseDigits(r[..2]) == seconds / 60 && JsText.ParseDigits(r[3..]) == seconds % 60
    {
      Clock.FormatTimeShape(seconds);
      Clock.FormatTime(seconds)
    }
  }
}
