/**
 * The elapsed-time hook: the minutes and seconds since a session or break
 * began, recomputed from the clock every second.
 */
module ElapsedTime {

  import opened Wrappers
  import JsMath

  datatype Elapsed = Elapsed(minutes: int, seconds: int)

  /**
   * `calculateElapsed`: `diff = now - startTimestamp`, then
   * `Math.floor(diff / 60000)` minutes and `Math.floor((diff % 60000) / 1000)`
   * seconds, with JavaScript's truncating `%`.
   */
  function CalculateElapsed(startTimestamp: int, now: int): (r: Elapsed)
    ensures var diff := now - startTimestamp;
      && r.minutes * 60000 <= diff < r.minutes * 60000 + 60000
      && (diff >= 0 ==> 0 <= r.seconds < 60 && r.minutes >= 0)
      && (diff >= 0 ==> r.minutes * 60000 + r.seconds * 1000 <= diff < r.minutes * 60000 + r.seconds * 1000 + 1000)
      && (diff < 0 ==> -60 <= r.seconds <= 0)
  {
    var diff := now - startTimestamp;
    Elapsed(diff / 60000, JsMath.Rem(diff, 60000) / 1000)
  }

  /**
   * What the hook returns at `now`: nothing when there is no start date or
   * its timestamp is 0 (`!startTimestamp`), else the elapsed time.
   */
  function UseElapsedTime(startDate: Option<int>, now: int): (r: Option<Elapsed>)
    ensures r.None? <==> startDate.None? || startDate.value == 0
    ensures r.Some? ==> r.value == CalculateElapsed(startDate.value, now)
  {
    if startDate.None? || startDate.value == 0 then None else Some(CalculateElapsed(startDate.value, now))
  }

  /** Whether `a` shows no later a time than `b`. */
  predicate NotLater(a: Elapsed, b: Elapsed)
  {
    a.minutes < b.minutes || (a.minutes == b.minutes && a.seconds <= b.seconds)
  }

  /** Once the start has passed, the time shown never goes back as the clock advances. */
  lemma {:induction false} ElapsedNeverGoesBack(startTimestamp: int, t1: int, t2: int)
    requires startTimestamp <= t1 <= t2
    ensures NotLater(CalculateElapsed(startTimestamp, t1), CalculateElapsed(startTimestamp, t2))
  {
    var a, b := CalculateElapsed(startTimestamp, t1), CalculateElapsed(startTimestamp, t2);
    var ta, tb := a.minutes * 60000 + a.seconds * 1000, b.minutes * 60000 + b.seconds * 1000;
    assert ta <= t1 - startTimestamp < tb + 1000;
    assert a.minutes <= b.minutes;
  }

  /** Ninety seconds after the start the hook shows 1 minute 30 seconds. */
  lemma NinetySeconds(startTimestamp: int)
    requires startTimestamp != 0
    ensures UseElapsedTime(Some(startTimestamp), startTimestamp + 90000) == Some(Elapsed(1, 30))
  {
  }
}
