/**
 * The shared Pomodoro timer component: work sessions alternate with short
 * breaks, and every `sessionsBeforeLongBreak`-th completed work session is
 * followed by a long break. The one-second interval becomes an explicit
 * `Tick` call; the sound and the desktop notification are left out.
 */
module PomodoroTimer {
  import Clock

  /** The timer settings, in minutes, and the long-break period. */
  datatype Settings = Settings(workDuration: int, shortBreakDuration: int, longBreakDuration: int,
                               sessionsBeforeLongBreak: int)

  /** One finished session: when, which mode, and that mode's duration in minutes. */
  datatype HistoryItem = HistoryItem(id: int, mode: string, duration: int, completedAt: int)

  const DefaultSettings := Settings(25, 5, 15, 4)

  /** `getModeDuration`: the minutes of a mode; a name other than the two breaks counts as work. */
  function ModeDuration(settings: Settings, mode: string): (minutes: int)
    ensures mode == "shortBreak" ==> minutes == settings.shortBreakDuration
    ensures mode == "longBreak" ==> minutes == settings.longBreakDuration
    ensures mode != "shortBreak" && mode != "longBreak" ==> minutes == settings.workDuration
  {
    match mode
    case "work" => settings.workDuration
    case "shortBreak" => settings.shortBreakDuration
    case "longBreak" => settings.longBreakDuration
    case _ => settings.workDuration
  }

  /**
   * `count % every === 0`. JavaScript's `%` keeps the dividend's sign, so
   * only the divisor's magnitude matters; with `every` 0 the remainder is
   * NaN and the test fails.
   */
  predicate LongBreakDue(count: int, every: int) {
    every != 0 && Clock.JsRem(count, if every < 0 then -every else every) == 0
  }

  /** For a positive period and a non-negative count, the test is plain divisibility. */
  lemma LongBreakDueIsDivisibility(count: nat, every: int)
    requires every > 0
    ensures LongBreakDue(count, every) <==> count % every == 0
  {
  }

  /**
   * The mode after finishing (or skipping) a session of `mode`, when
   * `workDone` work sessions will have been completed: after work a long
   * break when that count is due, else a short one; after a break, work.
   */
  function NextMode(mode: string, workDone: int, settings: Settings): (next: string)
    ensures mode != "work" ==> next == "work"
    ensures mode == "work" ==> (next == "longBreak" <==> LongBreakDue(workDone, settings.sessionsBeforeLongBreak))
    ensures mode == "work" ==> (next == "shortBreak" <==> !LongBreakDue(workDone, settings.sessionsBeforeLongBreak))
  {
    if mode != "work" then "work"
    else if LongBreakDue(workDone, settings.sessionsBeforeLongBreak) then "longBreak"
    else "shortBreak"
  }

  /** With the default settings, the fourth and eighth work sessions earn a long break and the others a short one. */
  lemma DefaultCycle(k: nat)
    requires 1 <= k <= 8
    ensures NextMode("work", k, DefaultSettings) == (if k == 4 || k == 8 then "longBreak" else "shortBreak")
  {
  }

  class Timer {
    var isActive: bool
    var isPaused: bool
    var mode: string
    var secondsLeft: int
    var settings: Settings
    var completedSessions: int
    var showSettings: bool
    var history: seq<HistoryItem>

    /** Inactive and paused in work mode with 25 minutes on the clock and the default settings. */
    constructor ()
      ensures !isActive && isPaused && mode == "work" && secondsLeft == 25 * 60
      ensures settings == DefaultSettings && completedSessions == 0 && !showSettings && history == []
    {
      isActive := false;
      isPaused := true;
      mode := "work";
      secondsLeft := 25 * 60;
      settings := DefaultSettings;
      completedSessions := 0;
      showSettings := false;
      history := [];
    }

    /** `switchMode`: the new mode with its full duration; the timer is active but paused. */
    method SwitchMode(newMode: string)
      modifies this
      ensures mode == newMode && secondsLeft == ModeDuration(settings, newMode) * 60 && isActive && isPaused
      ensures settings == old(settings) && completedSessions == old(completedSessions)
      ensures history == old(history) && showSettings == old(showSettings)
    {
      mode := newMode;
      secondsLeft := ModeDuration(settings, newMode) * 60;
      isActive := true;
      isPaused := true;
    }

    /**
     * `handleTimerComplete`: record the finished session first in the history,
     * count it if it was work, and switch to the next mode.
     */
    method Complete(now: int)
      modifies this
      ensures history == [HistoryItem(now, old(mode), ModeDuration(old(settings), old(mode)), now)] + old(history)
      ensures completedSessions == if old(mode) == "work" then old(completedSessions) + 1 else old(completedSessions)
      ensures mode == NextMode(old(mode), completedSessions, old(settings))
      ensures secondsLeft == ModeDuration(old(settings), mode) * 60 && isActive && isPaused
      ensures settings == old(settings) && showSettings == old(showSettings)
    {
      history := [HistoryItem(now, mode, ModeDuration(settings, mode), now)] + history;
      if mode == "work" {
        completedSessions := completedSessions + 1;
        if LongBreakDue(completedSessions, settings.sessionsBeforeLongBreak) {
          SwitchMode("longBreak");
        } else {
          SwitchMode("shortBreak");
        }
      } else {
        SwitchMode("work");
      }
    }

    /**
     * One second of the interval, which runs only while active and not
     * paused. At one second or less the session completes; the updater's 0
     * is overwritten by the next mode's duration that completion queues.
     */
    method Tick(now: int)
      modifies this
      ensures !(old(isActive) && !old(isPaused)) ==>
        isActive == old(isActive) && isPaused == old(isPaused) && mode == old(mode)
        && secondsLeft == old(secondsLeft) && completedSessions == old(completedSessions) && history == old(history)
      ensures old(isActive) && !old(isPaused) && old(secondsLeft) > 1 ==>
        secondsLeft == old(secondsLeft) - 1 && isActive && !isPaused && mode == old(mode)
        && completedSessions == old(completedSessions) && history == old(history)
      ensures old(isActive) && !old(isPaused) && old(secondsLeft) <= 1 ==>
        history == [HistoryItem(now, old(mode), ModeDuration(old(settings), old(mode)), now)] + old(history)
        && completedSessions == (if old(mode) == "work" then old(completedSessions) + 1 else old(completedSessions))
        && mode == NextMode(old(mode), completedSessions, old(settings)) && isActive && isPaused
        && secondsLeft == ModeDuration(old(settings), mode) * 60
      ensures settings == old(settings) && showSettings == old(showSettings)
    {
      if isActive && !isPaused {
        if secondsLeft <= 1 {
          secondsLeft := 0;
          Complete(now);
        } else {
          secondsLeft := secondsLeft - 1;
        }
      }
    }

    method StartTimer()
      modifies this
      ensures isActive && !isPaused
      ensures mode == old(mode) && secondsLeft == old(secondsLeft) && settings == old(settings)
      ensures completedSessions == old(completedSessions) && history == old(history) && showSettings == old(showSettings)
    {
      isActive := true;
      isPaused := false;
    }

    method PauseTimer()
      modifies this
      ensures isPaused && isActive == old(isActive)
      ensures mode == old(mode) && secondsLeft == old(secondsLeft) && settings == old(settings)
      ensures completedSessions == old(completedSessions) && history == old(history) && showSettings == old(showSettings)
    {
      isPaused := true;
    }

    /** `resetTimer`: stopped, with the current mode's full duration. */
    method ResetTimer()
      modifies this
      ensures !isActive && isPaused && secondsLeft == ModeDuration(settings, mode) * 60
      ensures mode == old(mode) && settings == old(settings)
      ensures completedSessions == old(completedSessions) && history == old(history) && showSettings == old(showSettings)
    {
      isActive := false;
      isPaused := true;
      secondsLeft := ModeDuration(settings, mode) * 60;
    }

    /** `skipSession`: the mode completion would pick, without counting the session or recording it. */
    method SkipSession()
      modifies this
      ensures mode == NextMode(old(mode), old(completedSessions) + 1, old(settings))
      ensures secondsLeft == ModeDuration(settings, mode) * 60 && isActive && isPaused
      ensures completedSessions == old(completedSessions) && history == old(history)
      ensures settings == old(settings) && showSettings == old(showSettings)
    {
      if mode == "work" {
        if LongBreakDue(completedSessions + 1, settings.sessionsBeforeLongBreak) {
          SwitchMode("longBreak");
        } else {
          SwitchMode("shortBreak");
        }
      } else {
        SwitchMode("work");
      }
    }

    /** `updateSettings`: stopped with the work duration on the clock, whatever the current mode. */
    method UpdateSettings()
      modifies this
      ensures !isActive && isPaused && secondsLeft == settings.workDuration * 60 && !showSettings
      ensures mode == old(mode) && settings == old(settings)
      ensures completedSessions == old(completedSessions) && history == old(history)
    {
      isActive := false;
      isPaused := true;
      secondsLeft := settings.workDuration * 60;
      showSettings := false;
    }

    /** `handleSettingsChange`: the named setting takes the parsed value; other names change nothing the timer reads. */
    method SettingsChange(name: string, value: int)
      modifies this
      ensures settings == SetSetting(old(settings), name, value)
      ensures isActive == old(isActive) && isPaused == old(isPaused) && mode == old(mode)
      ensures secondsLeft == old(secondsLeft) && completedSessions == old(completedSessions)
      ensures history == old(history) && showSettings == old(showSettings)
    {
      settings := SetSetting(settings, name, value);
    }
  }

  /** `{...settings, [name]: value}` restricted to the four settings the timer reads. */
  function SetSetting(s: Settings, name: string, value: int): (r: Settings)
    ensures name == "workDuration" ==> r == s.(workDuration := value)
    ensures name == "shortBreakDuration" ==> r == s.(shortBreakDuration := value)
    ensures name == "longBreakDuration" ==> r == s.(longBreakDuration := value)
    ensures name == "sessionsBeforeLongBreak" ==> r == s.(sessionsBeforeLongBreak := value)
    ensures name !in {"workDuration", "shortBreakDuration", "longBreakDuration", "sessionsBeforeLongBreak"} ==> r == s
  {
    match name
    case "workDuration" => s.(workDuration := value)
    case "shortBreakDuration" => s.(shortBreakDuration := value)
    case "longBreakDuration" => s.(longBreakDuration := value)
    case "sessionsBeforeLongBreak" => s.(sessionsBeforeLongBreak := value)
    case _ => s
  }

  /** Skipping a work session lands in the same mode that completing it would. */
  lemma SkipAgreesWithCompletion(mode: string, completed: int, settings: Settings)
    ensures NextMode(mode, completed + 1, settings) == NextMode(mode, if mode == "work" then completed + 1 else completed, settings)
  {
  }
}
