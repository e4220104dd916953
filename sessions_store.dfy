/**
 * The session/break store: one aggregate holding the pending queue, the
 * history of completed sessions and breaks, and the break in progress, and
 * one operation per write-atom of the store. Each operation reads the whole
 * state and replaces it.
 *
 * Timestamps are milliseconds since the epoch. The identifier of a new
 * session (`uuidv4()`) and the clock (`new Date()`) are parameters; where the
 * source reads the clock more than once within one operation the model uses
 * one reading, `now`.
 *
 * The functions named `After...` state what each operation does to a state
 * value; the class `SessionStore` holds the stored state and performs the
 * operations step by step, proved against those functions.
 */
module SessionsStore {

  import opened Wrappers
  import opened PomodoroTypes
  import Utils
  import JsMath
  import ListOps

  datatype PendingSession = PendingSession(
    id: string,
    title: string,
    description: Option<string>,
    sessionStartDate: Option<int>)

  /**
   * A completed session keeps every field of the pending entry it came from
   * (its start date included), and adds the end date, the length that counts
   * for statistics and, once the following break is over, that break's length.
   */
  datatype CompletedSession = CompletedSession(
    id: string,
    title: string,
    description: Option<string>,
    sessionStartDate: Option<int>,
    sessionEndDate: int,
    actualLength: int,
    breakAfterLength: Option<int>)

  datatype CompletedBreak = CompletedBreak(minutesDuration: int, breakStartDate: int, breakEndDate: int)

  /** The break in progress (`onBreakProps`). */
  datatype BreakProps = BreakProps(breakStartDate: int, minutesDuration: int)

  datatype SessionState = SessionState(
    pendingSessions: seq<PendingSession>,
    completedSessions: seq<CompletedSession>,
    completedBreaks: seq<CompletedBreak>,
    onBreakProps: Option<BreakProps>)

  /** What a caller supplies to add a session. */
  datatype SessionData = SessionData(title: string, description: Option<string>)

  /** The fields an edit may overwrite; `None` leaves a field as it is. */
  datatype SessionUpdates = SessionUpdates(title: Option<string>, description: Option<string>)

  /** The test `s => s.id === id` on pending sessions. */
  function HasId(id: string): PendingSession -> bool
  {
    (s: PendingSession) => s.id == id
  }

  /** The test `session => session.id !== id` of a delete. */
  function HasOtherId(id: string): PendingSession -> bool
  {
    (s: PendingSession) => s.id != id
  }

  /** The test `s => s.id === id` on completed sessions. */
  function HasCompletedId(id: string): CompletedSession -> bool
  {
    (s: CompletedSession) => s.id == id
  }

  predicate InQueue(ps: seq<PendingSession>, id: string)
  {
    exists k :: 0 <= k < |ps| && ps[k].id == id
  }

  /** Two pending entries describe the same session, whatever their start dates. */
  predicate SameSession(a: PendingSession, b: PendingSession)
  {
    a.id == b.id && a.title == b.title && a.description == b.description
  }

  /** The queue with every start date dropped: what is queued, and in which order. */
  function Unstamped(ps: seq<PendingSession>): seq<PendingSession>
  {
    seq(|ps|, k requires 0 <= k < |ps| => ps[k].(sessionStartDate := None))
  }

  /**
   * `pending[0].sessionStartDate = new Date()` on a shallow copy of a queue.
   * The copy shares its head object with the queue it was taken from, so the
   * new start date is what every later reader of that head sees.
   */
  function StampHead(ps: seq<PendingSession>, now: int): (r: seq<PendingSession>)
    ensures |r| == |ps|
    ensures |ps| > 0 ==> SameSession(r[0], ps[0]) && r[0].sessionStartDate == Some(now)
    ensures forall k :: 0 < k < |ps| ==> r[k] == ps[k]
    ensures Unstamped(r) == Unstamped(ps)
  {
    if |ps| == 0 then ps else ps[0 := ps[0].(sessionStartDate := Some(now))]
  }

  /** Whether the timer measures a length: timer on, measured lengths used, and a start date known. */
  predicate Measured(timer: TimerSettings, start: Option<int>)
  {
    timer.enabled && timer.useTimerForStats && start.Some?
  }

  /**
   * The length in minutes recorded for a finished session or break: the
   * elapsed time from `start` to `end` rounded to whole minutes when measured,
   * else the nominal length.
   */
  function ActualLength(timer: TimerSettings, start: Option<int>, end: int, nominal: int): (r: int)
    ensures Measured(timer, start) ==>
              r * JsMath.MsPerMinute - JsMath.MsPerMinute / 2 <= end - start.value < r * JsMath.MsPerMinute + JsMath.MsPerMinute / 2
    ensures !Measured(timer, start) ==> r == nominal
  {
    if Measured(timer, start) then JsMath.RoundMinutes(end - start.value) else nominal
  }

  /** The history entry made from a pending session completed at `end`. */
  function Completion(p: PendingSession, end: int, actualLength: int): CompletedSession
  {
    CompletedSession(p.id, p.title, p.description, p.sessionStartDate, end, actualLength, None)
  }

  // ---------------------------------------------------------------------------
  // The operations on a state value
  // ---------------------------------------------------------------------------

  /** Whether a move restamps the head: the old head moved, or another entry moved to the front. */
  predicate MoveRestampsHead(oldIndex: nat, newIndex: nat)
  {
    oldIndex == 0 || (newIndex == 0 && oldIndex != newIndex)
  }

  /** `moveSessionAtom`. */
  function AfterMove(s: SessionState, oldIndex: nat, newIndex: nat, now: int): (r: SessionState)
    requires oldIndex < |s.pendingSessions| && newIndex < |s.pendingSessions|
    ensures r.completedSessions == s.completedSessions && r.completedBreaks == s.completedBreaks
    ensures r.onBreakProps == s.onBreakProps
    ensures |r.pendingSessions| == |s.pendingSessions|
    ensures SameSession(r.pendingSessions[newIndex], s.pendingSessions[oldIndex])
    ensures multiset(Unstamped(r.pendingSessions)) == multiset(Unstamped(s.pendingSessions))
    ensures MoveRestampsHead(oldIndex, newIndex) ==> r.pendingSessions[0].sessionStartDate == Some(now)
    ensures forall k :: 0 <= k < |r.pendingSessions| && (k > 0 || !MoveRestampsHead(oldIndex, newIndex)) ==>
              r.pendingSessions[k] == ListOps.Move(s.pendingSessions, oldIndex, newIndex)[k]
  {
    var moved := ListOps.Move(s.pendingSessions, oldIndex, newIndex);
    UnstampedMove(s.pendingSessions, oldIndex, newIndex);
    s.(pendingSessions := if MoveRestampsHead(oldIndex, newIndex) then StampHead(moved, now) else moved)
  }

  /** Dropping start dates commutes with a move. */
  lemma {:induction false} UnstampedMove(ps: seq<PendingSession>, from: nat, to: nat)
    requires from < |ps| && to < |ps|
    ensures Unstamped(ListOps.Move(ps, from, to)) == ListOps.Move(Unstamped(ps), from, to)
  {
    var a, b := Unstamped(ListOps.Move(ps, from, to)), ListOps.Move(Unstamped(ps), from, to);
    forall k | 0 <= k < |ps|
      ensures a[k] == b[k]
    {
      ListOps.MoveAt(ps, from, to, k);
      ListOps.MoveAt(Unstamped(ps), from, to, k);
    }
  }

  /** `deleteSessionAtom`. */
  function AfterDelete(s: SessionState, id: string): (r: SessionState)
    ensures r.pendingSessions == ListOps.Filter(s.pendingSessions, HasOtherId(id))
    ensures r.completedSessions == s.completedSessions && r.completedBreaks == s.completedBreaks
    ensures r.onBreakProps == s.onBreakProps
    ensures forall p :: p in r.pendingSessions <==> p in s.pendingSessions && p.id != id
    ensures forall p :: multiset(r.pendingSessions)[p] == if p.id == id then 0 else multiset(s.pendingSessions)[p]
    ensures !InQueue(s.pendingSessions, id) ==> r == s
  {
    s.(pendingSessions := ListOps.Filter(s.pendingSessions, HasOtherId(id)))
  }

  /** `addSessionAtom`: `newId` stands for `uuidv4()`. */
  function AfterAdd(s: SessionState, newId: string, data: SessionData, now: int): (r: SessionState)
    ensures r.completedSessions == s.completedSessions && r.completedBreaks == s.completedBreaks
    ensures r.onBreakProps == s.onBreakProps
    ensures |r.pendingSessions| == |s.pendingSessions| + 1
    ensures r.pendingSessions[..|s.pendingSessions|] == s.pendingSessions
    ensures var added := r.pendingSessions[|s.pendingSessions|];
              added.id == newId && added.title == data.title && added.description == data.description
              && (added.sessionStartDate.Some? <==> |s.pendingSessions| == 0)
              && (added.sessionStartDate.Some? ==> added.sessionStartDate.value == now)
  {
    var added := PendingSession(newId, data.title, data.description,
                                if |s.pendingSessions| == 0 then Some(now) else None);
    s.(pendingSessions := s.pendingSessions + [added])
  }

  /** `completeSessionAtom`, completing the first pending session with identifier `id`. */
  function AfterCompleteSession(s: SessionState, id: string, settings: PomodoroSettings,
                                timer: TimerSettings, now: int): (r: SessionState)
    ensures !InQueue(s.pendingSessions, id) ==> r == s
    ensures var i := ListOps.FindIndex(s.pendingSessions, HasId(id));
      i >= 0 ==>
        var target, rest := s.pendingSessions[i], ListOps.RemoveAt(s.pendingSessions, i);
        && target.id == id
        && |r.pendingSessions| == |s.pendingSessions| - 1
        && Unstamped(r.pendingSessions) == Unstamped(rest)
        && (forall k :: 0 < k < |rest| ==> r.pendingSessions[k] == rest[k])
        && (|rest| > 0 ==> r.pendingSessions[0].sessionStartDate == Some(now))
        && |r.completedSessions| == |s.completedSessions| + 1
        && r.completedSessions[..|s.completedSessions|] == s.completedSessions
        && r.completedSessions[|s.completedSessions|] ==
             Completion(target, now, ActualLength(timer, target.sessionStartDate, now, settings.sessionLength))
        && r.completedBreaks == s.completedBreaks
        && (r.onBreakProps.Some? <==> |rest| > 0)
        && (r.onBreakProps.Some? ==>
              r.onBreakProps.value == BreakProps(now, Utils.GetBreakLength(settings, |s.completedBreaks|)))
  {
    var i := ListOps.FindIndex(s.pendingSessions, HasId(id));
    if i == -1 then s
    else
      var target := s.pendingSessions[i];
      var rest := StampHead(ListOps.RemoveAt(s.pendingSessions, i), now);
      var length := ActualLength(timer, target.sessionStartDate, now, settings.sessionLength);
      SessionState(
        rest,
        s.completedSessions + [Completion(target, now, length)],
        s.completedBreaks,
        if |rest| > 0 then Some(BreakProps(now, Utils.GetBreakLength(settings, |s.completedBreaks|))) else None)
  }

  /**
   * `completeSessionAtom` as it evidently intends: a break follows only when
   * breaks are enabled; everything else is as written.
   */
  function AfterCompleteSessionIntended(s: SessionState, id: string, settings: PomodoroSettings,
                                        timer: TimerSettings, now: int): (r: SessionState)
    ensures !InQueue(s.pendingSessions, id) ==> r == s
    ensures InQueue(s.pendingSessions, id) ==>
              && (r.onBreakProps.Some? <==> settings.breaksEnabled && |r.pendingSessions| > 0)
              && r.(onBreakProps := None) == AfterCompleteSession(s, id, settings, timer, now).(onBreakProps := None)
    ensures InQueue(s.pendingSessions, id) && r.onBreakProps.Some? ==>
              r.onBreakProps.value == BreakProps(now, Utils.GetBreakLength(settings, |s.completedBreaks|))
  {
    var written := AfterCompleteSession(s, id, settings, timer, now);
    if !InQueue(s.pendingSessions, id) || settings.breaksEnabled then written
    else written.(onBreakProps := None)
  }

  /**
   * The history after a break of `length` minutes ends: the copy of the last
   * completed session with `breakAfterLength` set replaces the first entry
   * carrying the last one's identifier.
   */
  function AttributeBreak(cs: seq<CompletedSession>, length: int): (r: seq<CompletedSession>)
    requires |cs| > 0
    ensures |r| == |cs|
    ensures forall k :: 0 <= k < |cs| ==> r[k] == cs[k] || r[k] == cs[|cs| - 1].(breakAfterLength := Some(length))
    ensures forall k :: 0 <= k < |cs| ==> r[k].id == cs[k].id
    ensures (forall k :: 0 <= k < |cs| - 1 ==> cs[k].id != cs[|cs| - 1].id) ==>
              r == cs[|cs| - 1 := cs[|cs| - 1].(breakAfterLength := Some(length))]
  {
    var last := cs[|cs| - 1];
    assert HasCompletedId(last.id)(cs[|cs| - 1]);
    var index := ListOps.FindIndex(cs, HasCompletedId(last.id));
    cs[index := last.(breakAfterLength := Some(length))]
  }

  /** Whether `completeBreakAtom` returns at once: no break, or a break of 0 minutes. */
  predicate NoBreakToComplete(s: SessionState)
  {
    s.onBreakProps.None? || s.onBreakProps.value.minutesDuration == 0
  }

  /** `completeBreakAtom`. */
  function AfterCompleteBreak(s: SessionState, timer: TimerSettings, now: int): (r: SessionState)
    ensures NoBreakToComplete(s) ==> r == s
    ensures !NoBreakToComplete(s) ==>
      var b := s.onBreakProps.value;
      var length := ActualLength(timer, Some(b.breakStartDate), now, b.minutesDuration);
      && r.onBreakProps.None?
      && r.completedBreaks == s.completedBreaks + [CompletedBreak(length, b.breakStartDate, now)]
      && |r.completedSessions| == |s.completedSessions|
      && (|s.completedSessions| > 0 ==> r.completedSessions == AttributeBreak(s.completedSessions, length))
      && Unstamped(r.pendingSessions) == Unstamped(s.pendingSessions)
      && (forall k :: 0 < k < |s.pendingSessions| ==> r.pendingSessions[k] == s.pendingSessions[k])
      && (|s.pendingSessions| > 0 ==> r.pendingSessions[0].sessionStartDate == Some(now))
  {
    if NoBreakToComplete(s) then s
    else
      var b := s.onBreakProps.value;
      var length := ActualLength(timer, Some(b.breakStartDate), now, b.minutesDuration);
      SessionState(
        StampHead(s.pendingSessions, now),
        if |s.completedSessions| > 0 then AttributeBreak(s.completedSessions, length) else s.completedSessions,
        s.completedBreaks + [CompletedBreak(length, b.breakStartDate, now)],
        None)
  }

  /** `{ ...session, ...updates }` for the fields an edit may carry. */
  function Merge(p: PendingSession, updates: SessionUpdates): PendingSession
  {
    p.(title := if updates.title.Some? then updates.title.value else p.title,
       description := if updates.description.Some? then updates.description else p.description)
  }

  /**
   * `editSessionAtom` as written: the merged queue is stored under a key
   * (`sessions`) that nothing reads, so no field of the state changes.
   */
  function AfterEdit(s: SessionState, id: string, updates: SessionUpdates): (r: SessionState)
    ensures r == s
  {
    s
  }

  /**
   * The edit the store evidently intends: the first pending session with the
   * identifier takes the updates and keeps its identifier and start date.
   */
  function AfterEditIntended(s: SessionState, id: string, updates: SessionUpdates): (r: SessionState)
    ensures r.completedSessions == s.completedSessions && r.completedBreaks == s.completedBreaks
    ensures r.onBreakProps == s.onBreakProps
    ensures |r.pendingSessions| == |s.pendingSessions|
    ensures !InQueue(s.pendingSessions, id) ==> r == s
    ensures var i := ListOps.FindIndex(s.pendingSessions, HasId(id));
      i >= 0 ==>
        && r.pendingSessions[i].id == id
        && r.pendingSessions[i].sessionStartDate == s.pendingSessions[i].sessionStartDate
        && r.pendingSessions[i].title == (if updates.title.Some? then updates.title.value else s.pendingSessions[i].title)
        && r.pendingSessions[i].description ==
             (if updates.description.Some? then updates.description else s.pendingSessions[i].description)
        && forall k :: 0 <= k < |s.pendingSessions| && k != i ==> r.pendingSessions[k] == s.pendingSessions[k]
  {
    var i := ListOps.FindIndex(s.pendingSessions, HasId(id));
    if i == -1 then s
    else s.(pendingSessions := s.pendingSessions[i := Merge(s.pendingSessions[i], updates)])
  }

  /** `deleteAllCompletedSessionsAtom`. */
  function AfterClearCompleted(s: SessionState): (r: SessionState)
    ensures r.completedSessions == [] && r.completedBreaks == []
    ensures r.pendingSessions == s.pendingSessions && r.onBreakProps == s.onBreakProps
  {
    s.(completedSessions := [], completedBreaks := [])
  }

  /** `deleteAllSessionsAtom`: a state built afresh, so the break goes too. */
  function AfterClearAll(s: SessionState): (r: SessionState)
    ensures r.pendingSessions == [] && r.completedSessions == [] && r.completedBreaks == []
    ensures r.onBreakProps.None?
  {
    SessionState([], [], [], None)
  }

  /** `resetStartTimesAtom`. */
  function AfterResetStartTimes(s: SessionState, now: int): (r: SessionState)
    ensures s.onBreakProps.Some? ==>
              r == s.(onBreakProps := Some(s.onBreakProps.value.(breakStartDate := now)))
    ensures s.onBreakProps.None? && |s.pendingSessions| > 0 ==>
              && r.completedSessions == s.completedSessions && r.completedBreaks == s.completedBreaks
              && r.onBreakProps == s.onBreakProps
              && |r.pendingSessions| == |s.pendingSessions|
              && r.pendingSessions[0] == s.pendingSessions[0].(sessionStartDate := Some(now))
              && forall k :: 0 < k < |s.pendingSessions| ==> r.pendingSessions[k] == s.pendingSessions[k]
    ensures s.onBreakProps.None? && |s.pendingSessions| == 0 ==> r == s
  {
    if s.onBreakProps.Some? then
      s.(onBreakProps := Some(s.onBreakProps.value.(breakStartDate := now)))
    else if |s.pendingSessions| > 0 then
      s.(pendingSessions := StampHead(s.pendingSessions, now))
    else
      s
  }

  // ---------------------------------------------------------------------------
  // The stored state and its write operations
  // ---------------------------------------------------------------------------

  /**
   * The stored session state (`sessionsAtom`). The settings each operation
   * reads are passed in.
   */
  class SessionStore {

    var state: SessionState

    /** A store holding `initial`, the state loaded from storage. */
    constructor (initial: SessionState)
      ensures state == initial
    {
      state := initial;
    }

    method MoveSession(oldIndex: nat, newIndex: nat, now: int)
      requires oldIndex < |state.pendingSessions| && newIndex < |state.pendingSessions|
      modifies this
      ensures state == AfterMove(old(state), oldIndex, newIndex, now)
    {
      var sessionsState := state;
      var newPendingSessions := ListOps.Move(sessionsState.pendingSessions, oldIndex, newIndex);
      if oldIndex == 0 || (newIndex == 0 && oldIndex != newIndex) {
        newPendingSessions := newPendingSessions[0 := newPendingSessions[0].(sessionStartDate := Some(now))];
      }
      state := sessionsState.(pendingSessions := newPendingSessions);
    }

    method DeleteSession(id: string)
      modifies this
      ensures state == AfterDelete(old(state), id)
    {
      var sessionsState := state;
      state := sessionsState.(pendingSessions := ListOps.Filter(sessionsState.pendingSessions, HasOtherId(id)));
    }

    /** `newId` stands for `uuidv4()`. */
    method AddSession(newId: string, sessionData: SessionData, now: int)
      modifies this
      ensures state == AfterAdd(old(state), newId, sessionData, now)
    {
      var sessionsState := state;
      var sessionStartDate := if |sessionsState.pendingSessions| == 0 then Some(now) else None;
      var added := PendingSession(newId, sessionData.title, sessionData.description, sessionStartDate);
      state := sessionsState.(pendingSessions := sessionsState.pendingSessions + [added]);
    }

    method CompleteSession(id: string, settings: PomodoroSettings, timerSettings: TimerSettings, now: int)
      modifies this
      ensures state == AfterCompleteSession(old(state), id, settings, timerSettings, now)
    {
      var sessionsState := state;
      var index := ListOps.FindIndex(sessionsState.pendingSessions, HasId(id));
      if index == -1 {
        return;
      }
      var previousPendingSession := sessionsState.pendingSessions[index];
      var sessionEndDate := now;
      var actualLengthInMinutes :=
        ActualLength(timerSettings, previousPendingSession.sessionStartDate, sessionEndDate, settings.sessionLength);
      var completedSession := Completion(previousPendingSession, sessionEndDate, actualLengthInMinutes);
      var newPendingSessions := ListOps.RemoveAt(sessionsState.pendingSessions, index);
      if |newPendingSessions| > 0 {
        newPendingSessions := newPendingSessions[0 := newPendingSessions[0].(sessionStartDate := Some(now))];
      }
      var newCompletedSessions := sessionsState.completedSessions + [completedSession];
      var breakLength := Utils.GetBreakLength(settings, |sessionsState.completedBreaks|);
      state := SessionState(
        newPendingSessions,
        newCompletedSessions,
        sessionsState.completedBreaks,
        if |newPendingSessions| > 0 then Some(BreakProps(now, breakLength)) else None);
    }

    method CompleteBreak(timerSettings: TimerSettings, now: int)
      modifies this
      ensures state == AfterCompleteBreak(old(state), timerSettings, now)
    {
      var sessionsState := state;
      if sessionsState.onBreakProps.None? || sessionsState.onBreakProps.value.minutesDuration == 0 {
        return;
      }
      var onBreak := sessionsState.onBreakProps.value;
      var breakEndDate := now;
      var actualMinutesDuration :=
        ActualLength(timerSettings, Some(onBreak.breakStartDate), breakEndDate, onBreak.minutesDuration);
      var newCompletedSessions := sessionsState.completedSessions;
      if |sessionsState.completedSessions| > 0 {
        var sessionToAttributeBreakTo := sessionsState.completedSessions[|sessionsState.completedSessions| - 1];
        var updatedSession := sessionToAttributeBreakTo.(breakAfterLength := Some(actualMinutesDuration));
        assert HasCompletedId(sessionToAttributeBreakTo.id)(newCompletedSessions[|newCompletedSessions| - 1]);
        var index := ListOps.FindIndex(newCompletedSessions, HasCompletedId(sessionToAttributeBreakTo.id));
        newCompletedSessions := newCompletedSessions[index := updatedSession];
      }
      var newPendingSessions := sessionsState.pendingSessions;
      if |newPendingSessions| > 0 {
        newPendingSessions := newPendingSessions[0 := newPendingSessions[0].(sessionStartDate := Some(now))];
      }
      state := SessionState(
        newPendingSessions,
        newCompletedSessions,
        sessionsState.completedBreaks + [CompletedBreak(actualMinutesDuration, onBreak.breakStartDate, breakEndDate)],
        None);
    }

    /** As written: the merged queue goes to a key nothing reads (see `AfterEdit`). */
    method EditSession(id: string, updates: SessionUpdates)
      modifies this
      ensures state == AfterEdit(old(state), id, updates)
    {
      var sessionsState := state;
      var index := ListOps.FindIndex(sessionsState.pendingSessions, HasId(id));
      if index == -1 {
        return;
      }
      var newSessions := sessionsState.pendingSessions[index := Merge(sessionsState.pendingSessions[index], updates)];
      state := sessionsState;
    }

    method DeleteAllCompletedSessions()
      modifies this
      ensures state == AfterClearCompleted(old(state))
    {
      var sessionsState := state;
      state := sessionsState.(completedBreaks := [], completedSessions := []);
    }

    method DeleteAllSessions()
      modifies this
      ensures state == AfterClearAll(old(state))
    {
      state := SessionState([], [], [], None);
    }

    method ResetStartTimes(now: int)
      modifies this
      ensures state == AfterResetStartTimes(old(state), now)
    {
      var sessionsState := state;
      if sessionsState.onBreakProps.Some? {
        state := sessionsState.(onBreakProps := Some(sessionsState.onBreakProps.value.(breakStartDate := now)));
        return;
      }
      if |sessionsState.pendingSessions| > 0 {
        var newPendingSessions := sessionsState.pendingSessions;
        newPendingSessions := newPendingSessions[0 := newPendingSessions[0].(sessionStartDate := Some(now))];
        state := sessionsState.(pendingSessions := newPendingSessions);
      }
    }
  }
}
