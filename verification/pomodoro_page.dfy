/**
 * The web Pomodoro page: a countdown of one of three lengths, a start/stop
 * button, a reset, and a count of finished pomodoros. The page's effect
 * runs after every render in which `isRunning` or `timeLeft` changed: while
 * running with time left it arms a one-second interval, and at zero it
 * completes the session. The interval firing is the explicit `Tick`; the
 * re-running of the effect after each state change is the loop in
 * `Commit`. The desktop notification is left out.
 */
module PomodoroPage {
  import Clock
  import JsText

  datatype TimerType = Pomodoro | ShortBreak | LongBreak

  /** `timerConfigs`, in seconds. */
  function Duration(t: TimerType): (seconds: int)
    ensures seconds > 0
  {
    match t
    case Pomodoro => 25 * 60
    case ShortBreak => 5 * 60
    case LongBreak => 15 * 60
  }

  /** The state the effect reads and writes. */
  datatype Timer = Timer(timeLeft: int, isRunning: bool, timerType: TimerType, sessions: int)

  /** `handleTimerComplete`: a finished pomodoro counts one session, and the timer stops. */
  function Complete(s: Timer): (r: Timer)
    ensures !r.isRunning && r.timeLeft == s.timeLeft && r.timerType == s.timerType
    ensures r.sessions == if s.timerType == Pomodoro then s.sessions + 1 else s.sessions
  {
    s.(sessions := if s.timerType == Pomodoro then s.sessions + 1 else s.sessions, isRunning := false)
  }

  /** One run of the effect: with time left and running it only arms the interval; at zero it completes. */
  function RunEffect(s: Timer): Timer {
    if s.isRunning && s.timeLeft > 0 then s
    else if s.timeLeft == 0 then Complete(s)
    else s
  }

  /** Whether the effect's dependencies differ from the ones it last ran with. */
  predicate Changed(s: Timer, lastRunning: bool, lastTimeLeft: int) {
    s.isRunning != lastRunning || s.timeLeft != lastTimeLeft
  }

  function Pending(s: Timer, lastRunning: bool, lastTimeLeft: int): nat {
    (if s.isRunning then 2 else 0) + (if Changed(s, lastRunning, lastTimeLeft) then 1 else 0)
  }

  /**
   * The state once the effect has re-run for every change of its
   * dependencies, starting from the values it last ran with. A completion
   * stops the timer, which is itself a change, so a run that ends at zero
   * completes once more.
   */
  function Settle(s: Timer, lastRunning: bool, lastTimeLeft: int): (r: Timer)
    ensures r.timeLeft == s.timeLeft && r.timerType == s.timerType
    decreases Pending(s, lastRunning, lastTimeLeft)
  {
    if !Changed(s, lastRunning, lastTimeLeft) then s
    else Settle(RunEffect(s), s.isRunning, s.timeLeft)
  }

  /** While time is left, settling changes nothing: the effect only arms the next interval. */
  lemma SettleWithTimeLeft(s: Timer, lastRunning: bool, lastTimeLeft: int)
    requires s.timeLeft > 0
    ensures Settle(s, lastRunning, lastTimeLeft) == s
  {
  }

  /**
   * When a running timer reaches zero the effect completes the session,
   * and the stop that completion makes re-runs the effect, which completes
   * it again: a finished pomodoro counts two sessions.
   */
  lemma FinishCountsTwice(s: Timer, lastTimeLeft: int)
    requires s.isRunning && s.timeLeft == 0 && lastTimeLeft != 0
    ensures var r := Settle(s, true, lastTimeLeft);
      !r.isRunning && r.timeLeft == 0 && r.timerType == s.timerType
      && r.sessions == if s.timerType == Pomodoro then s.sessions + 2 else s.sessions
  {
    var once := Complete(s);
    assert Settle(s, true, lastTimeLeft) == Settle(once, true, 0);
    assert Settle(once, true, 0) == Settle(Complete(once), false, 0);
  }

  /** A stopped timer at zero completes once on a change; starting it there completes twice more. */
  lemma ChangeAtZero(s: Timer, lastRunning: bool)
    requires s.timeLeft == 0 && s.isRunning != lastRunning
    ensures var r := Settle(s, lastRunning, 0);
      !r.isRunning && r.timeLeft == 0
      && r.sessions == s.sessions + (if s.timerType == Pomodoro then (if s.isRunning then 2 else 1) else 0)
  {
    if s.isRunning {
      FinishCountsTwice(s, 1);
      assert Settle(s, lastRunning, 0) == Settle(Complete(s), true, 0);
      assert Settle(s, true, 1) == Settle(Complete(s), true, 0);
    }
  }

  /**
   * What the page evidently means a tick to do: count down, and on
   * reaching zero complete the session exactly once.
   */
  function TickIntended(s: Timer): (r: Timer)
    ensures s.isRunning && s.timeLeft > 1 ==> r == s.(timeLeft := s.timeLeft - 1)
    ensures s.isRunning && s.timeLeft == 1 ==> (!r.isRunning && r.timeLeft == 0
      && r.sessions == if s.timerType == Pomodoro then s.sessions + 1 else s.sessions)
    ensures !(s.isRunning && s.timeLeft > 0) ==> r == s
  {
    if s.isRunning && s.timeLeft > 0 then
      var t := s.(timeLeft := s.timeLeft - 1);
      if t.timeLeft == 0 then Complete(t) else t
    else s
  }

  /** Before the last second the page's tick and the intended one agree. */
  lemma IntendedAgreesBeforeFinish(s: Timer)
    requires s.isRunning && s.timeLeft > 1
    ensures TickIntended(s) == Settle(s.(timeLeft := s.timeLeft - 1), true, s.timeLeft)
  {
    SettleWithTimeLeft(s.(timeLeft := s.timeLeft - 1), true, s.timeLeft);
  }

  datatype Settings = Settings(notifications: bool, autoStartBreaks: bool, autoStartPomodoros: bool, darkMode: bool)

  datatype Setting = Notifications | AutoStartBreaks | AutoStartPomodoros

  /** `setSettings({ ...settings, [name]: !settings[name] })`. */
  function Toggled(s: Settings, name: Setting): (r: Settings)
    ensures name == Notifications ==> r == s.(notifications := !s.notifications)
    ensures name == AutoStartBreaks ==> r == s.(autoStartBreaks := !s.autoStartBreaks)
    ensures name == AutoStartPomodoros ==> r == s.(autoStartPomodoros := !s.autoStartPomodoros)
  {
    match name
    case Notifications => s.(notifications := !s.notifications)
    case AutoStartBreaks => s.(autoStartBreaks := !s.autoStartBreaks)
    case AutoStartPomodoros => s.(autoStartPomodoros := !s.autoStartPomodoros)
  }

  lemma ToggleTwice(s: Settings, name: Setting)
    ensures Toggled(Toggled(s, name), name) == s
  {
  }

  class PomodoroView {
    var timeLeft: int
    var isRunning: bool
    var timerType: TimerType
    var sessions: int
    var settings: Settings

    function State(): Timer
      reads this
    {
      Timer(timeLeft, isRunning, timerType, sessions)
    }

    /** The clock never runs below zero or above the full length of the current kind of session. */
    ghost predicate Valid()
      reads this
    {
      0 <= timeLeft <= Duration(timerType) && sessions >= 0
    }

    /** A stopped 25-minute pomodoro with no sessions; notifications on, the rest off. */
    constructor ()
      ensures Valid() && timeLeft == 25 * 60 && !isRunning && timerType == Pomodoro && sessions == 0
      ensures settings == Settings(true, false, false, false)
    {
      timeLeft := 25 * 60;
      isRunning := false;
      timerType := Pomodoro;
      sessions := 0;
      settings := Settings(true, false, false, false);
    }

    /** Re-runs the effect until its dependencies stop changing, given the values it last ran with. */
    method Commit(lastRunning: bool, lastTimeLeft: int)
      requires Valid()
      modifies this
      ensures Valid() && State() == Settle(old(State()), lastRunning, lastTimeLeft)
      ensures settings == old(settings)
    {
      var depRunning, depTimeLeft := lastRunning, lastTimeLeft;
      while isRunning != depRunning || timeLeft != depTimeLeft
        invariant Valid() && settings == old(settings)
        invariant Settle(State(), depRunning, depTimeLeft) == Settle(old(State()), lastRunning, lastTimeLeft)
        decreases Pending(State(), depRunning, depTimeLeft)
      {
        depRunning, depTimeLeft := isRunning, timeLeft;
        if !(isRunning && timeLeft > 0) && timeLeft == 0 {
          if timerType == Pomodoro {
            sessions := sessions + 1;
          }
          isRunning := false;
        }
      }
    }

    /**
     * The interval firing, which it does only while running with time left:
     * one second off the clock, then the effect; at zero that completes the
     * session twice, as `FinishCountsTwice` shows.
     */
    method Tick()
      requires Valid()
      modifies this
      ensures Valid() && settings == old(settings)
      ensures old(isRunning) && old(timeLeft) > 0 ==>
        State() == Settle(old(State()).(timeLeft := old(timeLeft) - 1), true, old(timeLeft))
      ensures old(isRunning) && old(timeLeft) > 1 ==> State() == old(State()).(timeLeft := old(timeLeft) - 1)
      ensures old(isRunning) && old(timeLeft) == 1 ==> (timeLeft == 0 && !isRunning
        && sessions == if timerType == Pomodoro then old(sessions) + 2 else old(sessions))
      ensures !(old(isRunning) && old(timeLeft) > 0) ==> State() == old(State())
    {
      if isRunning && timeLeft > 0 {
        var last := timeLeft;
        timeLeft := timeLeft - 1;
        if timeLeft > 0 {
          SettleWithTimeLeft(State(), true, last);
        } else {
          FinishCountsTwice(State(), last);
        }
        Commit(true, last);
      }
    }

    /** `handleStartStop`: the running flag flips and the effect re-runs. */
    method StartStop()
      requires Valid()
      modifies this
      ensures Valid() && settings == old(settings)
      ensures State() == Settle(old(State()).(isRunning := !old(isRunning)), old(isRunning), old(timeLeft))
      ensures old(timeLeft) > 0 ==> State() == old(State()).(isRunning := !old(isRunning))
    {
      var last := isRunning;
      isRunning := !isRunning;
      if timeLeft > 0 {
        SettleWithTimeLeft(State(), last, timeLeft);
      }
      Commit(last, timeLeft);
    }

    /** `handleReset`: the full length of the current kind, stopped; no session is counted. */
    method Reset()
      requires Valid()
      modifies this
      ensures Valid() && settings == old(settings)
      ensures timeLeft == Duration(timerType) && !isRunning
      ensures timerType == old(timerType) && sessions == old(sessions)
    {
      var lastRunning, lastTimeLeft := isRunning, timeLeft;
      timeLeft := Duration(timerType);
      isRunning := false;
      SettleWithTimeLeft(State(), lastRunning, lastTimeLeft);
      Commit(lastRunning, lastTimeLeft);
    }

    /** `switchTimerType`: the new kind at its full length, stopped. */
    method SwitchTimerType(t: TimerType)
      requires Valid()
      modifies this
      ensures Valid() && settings == old(settings)
      ensures timerType == t && timeLeft == Duration(t) && !isRunning && sessions == old(sessions)
    {
      var lastRunning, lastTimeLeft := isRunning, timeLeft;
      timerType := t;
      timeLeft := Duration(t);
      isRunning := false;
      SettleWithTimeLeft(State(), lastRunning, lastTimeLeft);
      Commit(lastRunning, lastTimeLeft);
    }

    /** One of the settings switches; the timer is untouched. */
    method ToggleSetting(name: Setting)
      requires Valid()
      modifies this
      ensures Valid() && settings == Toggled(old(settings), name) && State() == old(State())
    {
      settings := Toggled(settings, name);
    }

    /** `formatTime(timeLeft)`: with the clock in range this is always five characters, MM:SS. */
    function Display(): (r: string)
      requires Valid()
      reads this
      ensures |r| == 5 && r[2] == ':'
      ensures JsText.ParseDigits(r[..2]) == timeLeft / 60 && JsText.ParseDigits(r[3..]) == timeLeft % 60
    {
      Clock.FormatTimeShape(timeLeft);
      Clock.FormatTime(timeLeft)
    }
  }
}
