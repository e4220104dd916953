/**
 * The settings the core reads: the pomodoro settings (lengths in minutes and
 * the break cadence) and the timer settings. Sound settings are not part of
 * this model.
 */
module PomodoroTypes {

  datatype LongerBreaks = LongerBreaks(frequency: int, length: int)

  datatype PomodoroSettings = PomodoroSettings(
    sessionLength: int,
    breakLength: int,
    breaksEnabled: bool,
    longerBreaksEnabled: bool,
    longerBreaks: LongerBreaks)

  /** `enabled`: wall-clock measuring is on; `useTimerForStats`: measured lengths feed the history. */
  datatype TimerSettings = TimerSettings(enabled: bool, useTimerForStats: bool)
}
