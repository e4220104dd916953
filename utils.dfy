/** The break-cadence rule: how long the next break is. */
module Utils {

  import opened PomodoroTypes
  import JsMath

  /**
   * Whether `(count + 1) % frequency === 0` holds in JavaScript. A frequency
   * of 0 makes the remainder NaN, which equals nothing, so the test fails.
   */
  predicate LongBreakDue(count: nat, frequency: int)
  {
    frequency != 0 && JsMath.Rem(count + 1, frequency) == 0
  }

  /**
   * `getBreakLength`: the length in minutes of the break that follows
   * `numberOfPreviouslyCompletedBreaks` completed breaks.
   */
  function GetBreakLength(settings: PomodoroSettings, numberOfPreviouslyCompletedBreaks: nat): (r: int)
    ensures r == 0 || r == settings.breakLength || r == settings.longerBreaks.length
    ensures !settings.breaksEnabled ==> r == 0
    ensures settings.breaksEnabled && !settings.longerBreaksEnabled ==> r == settings.breakLength
  {
    if !settings.breaksEnabled then 0
    else if !settings.longerBreaksEnabled then settings.breakLength
    else if LongBreakDue(numberOfPreviouslyCompletedBreaks, settings.longerBreaks.frequency) then
      settings.longerBreaks.length
    else
      settings.breakLength
  }

  /**
   * With both kinds of break on and a positive frequency N, the break after
   * n completed ones is long exactly when it is the (n+1)-th and N divides n+1.
   */
  lemma CadenceRule(settings: PomodoroSettings, n: nat)
    requires settings.breaksEnabled && settings.longerBreaksEnabled
    requires settings.longerBreaks.frequency > 0
    ensures GetBreakLength(settings, n) ==
              if (n + 1) % settings.longerBreaks.frequency == 0 then settings.longerBreaks.length
              else settings.breakLength
  {
  }

  /** Adding N to the count of completed breaks leaves the next break's length unchanged. */
  lemma {:induction false} CadenceIsPeriodic(settings: PomodoroSettings, n: nat)
    requires settings.longerBreaks.frequency > 0
    ensures GetBreakLength(settings, n) == GetBreakLength(settings, n + settings.longerBreaks.frequency)
  {
    var f := settings.longerBreaks.frequency;
    ShiftMod(n + 1, f);
  }

  /** Adding the modulus does not change a remainder. */
  lemma ShiftMod(a: nat, f: int)
    requires f > 0
    ensures (a + f) % f == a % f
  {
    var q, r := a / f, a % f;
    var q', r' := (a + f) / f, (a + f) % f;
    assert f * (q' - q - 1) == r - r';
    OnlyZeroMultipleBelow(f, q' - q - 1);
  }

  /** The only multiple of f strictly between -f and f is 0. */
  lemma OnlyZeroMultipleBelow(f: int, d: int)
    requires f > 0 && -f < f * d < f
    ensures d == 0
  {
  }

  /**
   * Within each run of N consecutive breaks, counted from the first, only the
   * last is long: the breaks after m*N + j completed breaks, for j < N - 1,
   * are short, and the one after m*N + N - 1 is long.
   */
  lemma {:induction false} EveryNthBreakIsLong(settings: PomodoroSettings, m: nat, j: nat)
    requires settings.breaksEnabled && settings.longerBreaksEnabled
    requires settings.longerBreaks.frequency > 0 && j < settings.longerBreaks.frequency
    ensures GetBreakLength(settings, m * settings.longerBreaks.frequency + j) ==
              if j == settings.longerBreaks.frequency - 1 then settings.longerBreaks.length
              else settings.breakLength
  {
    var f := settings.longerBreaks.frequency;
    var n := m * f + j;
    MultipleShift(m, j + 1, f);
    assert (n + 1) % f == (j + 1) % f;
    if j == f - 1 {
      ShiftMod(0, f);
      assert (n + 1) % f == 0;
    } else {
      assert (n + 1) % f == j + 1;
    }
    CadenceRule(settings, n);
  }

  /** (m*f + a) % f == a % f. */
  lemma {:induction false} MultipleShift(m: nat, a: nat, f: int)
    requires f > 0
    ensures (m * f + a) % f == a % f
  {
    if m > 0 {
      MultipleShift(m - 1, a, f);
      assert m * f + a == ((m - 1) * f + a) + f;
      ShiftMod((m - 1) * f + a, f);
    }
  }

  /**
   * With both kinds of break on and the default frequency of 3, the first two
   * breaks are short, the third is long, and so is the sixth.
   */
  lemma DefaultCadence(settings: PomodoroSettings)
    requires settings.breaksEnabled && settings.longerBreaksEnabled
    requires settings.longerBreaks.frequency == 3
    ensures GetBreakLength(settings, 0) == settings.breakLength
    ensures GetBreakLength(settings, 1) == settings.breakLength
    ensures GetBreakLength(settings, 2) == settings.longerBreaks.length
    ensures GetBreakLength(settings, 5) == settings.longerBreaks.length
  {
  }

  /** A zero frequency never yields a long break. */
  lemma ZeroFrequencyNeverLong(settings: PomodoroSettings, n: nat)
    requires settings.breaksEnabled && settings.longerBreaks.frequency == 0
    ensures GetBreakLength(settings, n) == settings.breakLength
  {
  }
}
