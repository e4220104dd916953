/**
 * The session statistics shown above the planner: how many sessions a list
 * holds and how long they take, sessions and the breaks between them, in
 * hours and minutes.
 */
module PomodoroStats {

  import opened PomodoroTypes
  import JsMath

  datatype SessionStats = SessionStats(hoursRemaining: int, minutesRemaining: int, count: nat)

  /**
   * The reduce callback on the entry at `idx` of a list of `len`: the last
   * entry adds one session, every other one a session and a break.
   */
  function AddEntry(sum: int, idx: nat, len: nat, settings: PomodoroSettings): int
  {
    if idx == len - 1 then sum + settings.sessionLength
    else sum + settings.sessionLength + settings.breakLength
  }

  /** `reduce` from index `idx` on, with `sum` accumulated so far. */
  function Reduce(len: nat, idx: nat, sum: int, settings: PomodoroSettings): int
    decreases len - idx
  {
    if idx >= len then sum else Reduce(len, idx + 1, AddEntry(sum, idx, len, settings), settings)
  }

  /** Sessions of `sessionLength` with a break of `breakLength` between each two of them. */
  function PlannedMinutes(count: nat, settings: PomodoroSettings): int
  {
    if count == 0 then 0 else count * settings.sessionLength + (count - 1) * settings.breakLength
  }

  /** For the entries from `idx` on, the reduce adds their sessions and the breaks between them and after `idx`. */
  lemma {:induction false} ReduceAdds(len: nat, idx: nat, sum: int, settings: PomodoroSettings)
    requires idx <= len
    ensures Reduce(len, idx, sum, settings) == sum + PlannedMinutes(len - idx, settings)
    decreases len - idx
  {
    if idx < len {
      ReduceAdds(len, idx + 1, AddEntry(sum, idx, len, settings), settings);
    }
  }

  /** The `totalMinutes` of a list: its sessions and one break between each two. */
  function TotalMinutes<T>(sessionsList: seq<T>, settings: PomodoroSettings): (r: int)
    ensures r == PlannedMinutes(|sessionsList|, settings)
  {
    ReduceAdds(|sessionsList|, 0, 0, settings);
    Reduce(|sessionsList|, 0, 0, settings)
  }

  /**
   * `calcSessionStats`: the count of the list, and its total minutes as
   * `Math.floor(total / 60)` hours and `total % 60` minutes, with JavaScript's
   * truncating `%`.
   */
  function CalcSessionStats<T>(sessionsList: seq<T>, settings: PomodoroSettings): (r: SessionStats)
    ensures r.count == |sessionsList|
    ensures var total := PlannedMinutes(|sessionsList|, settings);
      && r.hoursRemaining * 60 <= total < r.hoursRemaining * 60 + 60
      && (total >= 0 ==> r.hoursRemaining * 60 + r.minutesRemaining == total && 0 <= r.minutesRemaining < 60)
      && (total < 0 ==> -60 < r.minutesRemaining <= 0)
  {
    var total := TotalMinutes(sessionsList, settings);
    SessionStats(total / 60, JsMath.Rem(total, 60), |sessionsList|)
  }

  /** One more session planned adds a session and a break to a non-empty plan. */
  lemma OneMoreSession(count: nat, settings: PomodoroSettings)
    requires count > 0
    ensures PlannedMinutes(count + 1, settings) == PlannedMinutes(count, settings) + settings.sessionLength + settings.breakLength
  {
  }

  /** With the stored lengths, four sessions take 4*25 + 3*5 = 115 minutes: 1 hour and 55 minutes. */
  lemma FourSessions<T>(sessionsList: seq<T>)
    requires |sessionsList| == 4
    ensures CalcSessionStats(sessionsList, PomodoroSettings(25, 5, true, true, LongerBreaks(3, 15))) == SessionStats(1, 55, 4)
  {
  }

  /** An empty list counts nothing. */
  lemma EmptyList<T>(settings: PomodoroSettings)
    ensures CalcSessionStats<T>([], settings) == SessionStats(0, 0, 0)
  {
  }
}
