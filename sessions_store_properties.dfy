/**
 * Properties of the store's operations that relate several calls: an
 * invariant every operation keeps (no identifier occurs twice), inverses and
 * idempotence, the break cadence seen through a run of completions, and two
 * places where the code as written departs from what it evidently intends.
 */
module SessionsStoreProperties {

  import opened Wrappers
  import opened PomodoroTypes
  import opened SessionsStore
  import Utils
  import ListOps

  // ---------------------------------------------------------------------------
  // Identifiers
  // ---------------------------------------------------------------------------

  /** The identifiers of a queue, in order. */
  function PendingIds(ps: seq<PendingSession>): (r: seq<string>)
    ensures |r| == |ps|
  {
    seq(|ps|, k requires 0 <= k < |ps| => ps[k].id)
  }

  /** The identifiers of a history, in order. */
  function CompletedIds(cs: seq<CompletedSession>): seq<string>
  {
    seq(|cs|, k requires 0 <= k < |cs| => cs[k].id)
  }

  /** Every identifier the state holds, pending first. */
  function AllIds(s: SessionState): seq<string>
  {
    PendingIds(s.pendingSessions) + CompletedIds(s.completedSessions)
  }

  /** No identifier occurs twice among the pending and completed sessions. */
  ghost predicate IdsDistinct(s: SessionState)
  {
    forall x :: multiset(AllIds(s))[x] <= 1
  }

  /** An identifier at two positions of a list occurs at least twice in it. */
  lemma {:induction false} TwoPositions(ids: seq<string>, i: nat, j: nat)
    requires i < j < |ids| && ids[i] == ids[j]
    ensures multiset(ids)[ids[i]] >= 2
  {
    assert ids == ids[..j] + [ids[j]] + ids[j + 1..];
    assert ids[..j][i] == ids[i];
  }

  lemma {:induction false} PendingIdsMove(ps: seq<PendingSession>, from: nat, to: nat)
    requires from < |ps| && to < |ps|
    ensures PendingIds(ListOps.Move(ps, from, to)) == ListOps.Move(PendingIds(ps), from, to)
  {
    var a, b := PendingIds(ListOps.Move(ps, from, to)), ListOps.Move(PendingIds(ps), from, to);
    forall k | 0 <= k < |ps|
      ensures a[k] == b[k]
    {
      ListOps.MoveAt(ps, from, to, k);
      ListOps.MoveAt(PendingIds(ps), from, to, k);
    }
  }

  lemma PendingIdsStampHead(ps: seq<PendingSession>, now: int)
    ensures PendingIds(StampHead(ps, now)) == PendingIds(ps)
  {
  }

  lemma {:induction false} PendingIdsRemoveAt(ps: seq<PendingSession>, i: nat)
    requires i < |ps|
    ensures multiset(PendingIds(ListOps.RemoveAt(ps, i))) + multiset{ps[i].id} == multiset(PendingIds(ps))
  {
    assert PendingIds(ListOps.RemoveAt(ps, i)) == ListOps.RemoveAt(PendingIds(ps), i);
    ListOps.RemoveAtMultiset(PendingIds(ps), i);
  }

  lemma PendingIdsCons(p: PendingSession, ps: seq<PendingSession>)
    ensures PendingIds([p] + ps) == [p.id] + PendingIds(ps)
  {
  }

  lemma {:induction false} PendingIdsFilter(ps: seq<PendingSession>, id: string)
    ensures multiset(PendingIds(ListOps.Filter(ps, HasOtherId(id)))) <= multiset(PendingIds(ps))
  {
    if |ps| > 0 {
      var keep := HasOtherId(id);
      var rest := ListOps.Filter(ps[1..], keep);
      assert ps == [ps[0]] + ps[1..];
      assert ListOps.Filter(ps, keep) == if keep(ps[0]) then [ps[0]] + rest else rest;
      PendingIdsFilter(ps[1..], id);
      PendingIdsCons(ps[0], ps[1..]);
      PendingIdsCons(ps[0], rest);
      assert multiset(PendingIds(ps)) == multiset([ps[0].id]) + multiset(PendingIds(ps[1..]));
      assert multiset(PendingIds([ps[0]] + rest)) == multiset([ps[0].id]) + multiset(PendingIds(rest));
    }
  }

  lemma CompletedIdsAppend(cs: seq<CompletedSession>, c: CompletedSession)
    ensures CompletedIds(cs + [c]) == CompletedIds(cs) + [c.id]
  {
  }

  /** The write operations, one constructor per write-atom, with their arguments and clock reading. */
  datatype Command =
    | MoveSession(oldIndex: nat, newIndex: nat, now: int)
    | DeleteSession(id: string)
    | AddSession(newId: string, data: SessionData, now: int)
    | CompleteSession(id: string, now: int)
    | CompleteBreak(now: int)
    | EditSession(id: string, updates: SessionUpdates)
    | DeleteAllCompletedSessions
    | DeleteAllSessions
    | ResetStartTimes(now: int)

  /**
   * What a caller may issue: a move within the queue, and an added session
   * whose identifier (a fresh `uuidv4()`) the state does not hold yet.
   */
  predicate Allowed(s: SessionState, c: Command)
  {
    match c
    case MoveSession(oldIndex, newIndex, _) => oldIndex < |s.pendingSessions| && newIndex < |s.pendingSessions|
    case AddSession(newId, _, _) => newId !in AllIds(s)
    case _ => true
  }

  /**
   * Which edit and completion a command performs: the store's code as
   * written, or as corrected (see `AfterEditIntended` and
   * `AfterCompleteSessionIntended`). The other operations are the same in both.
   */
  datatype Version = AsWritten | Corrected

  function Apply(s: SessionState, c: Command, settings: PomodoroSettings, timer: TimerSettings, v: Version): SessionState
    requires Allowed(s, c)
  {
    match c
    case MoveSession(oldIndex, newIndex, now) => AfterMove(s, oldIndex, newIndex, now)
    case DeleteSession(id) => AfterDelete(s, id)
    case AddSession(newId, data, now) => AfterAdd(s, newId, data, now)
    case CompleteSession(id, now) =>
      if v.AsWritten? then AfterCompleteSession(s, id, settings, timer, now)
      else AfterCompleteSessionIntended(s, id, settings, timer, now)
    case CompleteBreak(now) => AfterCompleteBreak(s, timer, now)
    case EditSession(id, updates) => if v.AsWritten? then AfterEdit(s, id, updates) else AfterEditIntended(s, id, updates)
    case DeleteAllCompletedSessions => AfterClearCompleted(s)
    case DeleteAllSessions => AfterClearAll(s)
    case ResetStartTimes(now) => AfterResetStartTimes(s, now)
  }

  /** A move carries the same identifiers. */
  lemma {:induction false} MoveKeepsIds(s: SessionState, oldIndex: nat, newIndex: nat, now: int)
    requires oldIndex < |s.pendingSessions| && newIndex < |s.pendingSessions|
    ensures multiset(AllIds(AfterMove(s, oldIndex, newIndex, now))) == multiset(AllIds(s))
  {
    var moved := ListOps.Move(s.pendingSessions, oldIndex, newIndex);
    PendingIdsMove(s.pendingSessions, oldIndex, newIndex);
    PendingIdsStampHead(moved, now);
    assert PendingIds(AfterMove(s, oldIndex, newIndex, now).pendingSessions) == PendingIds(moved);
  }

  /** A deletion only drops identifiers. */
  lemma {:induction false} DeleteKeepsIds(s: SessionState, id: string)
    ensures multiset(AllIds(AfterDelete(s, id))) <= multiset(AllIds(s))
  {
    PendingIdsFilter(s.pendingSessions, id);
  }

  /** An addition adds its one identifier. */
  lemma {:induction false} AddKeepsIds(s: SessionState, newId: string, data: SessionData, now: int)
    ensures multiset(AllIds(AfterAdd(s, newId, data, now))) == multiset(AllIds(s)) + multiset{newId}
  {
    var r := AfterAdd(s, newId, data, now);
    assert PendingIds(r.pendingSessions) == PendingIds(s.pendingSessions) + [newId];
  }

  /** Completing a session moves its identifier from the queue to the completed list. */
  lemma {:induction false} CompleteKeepsIds(s: SessionState, id: string, settings: PomodoroSettings,
                                            timer: TimerSettings, now: int)
    ensures multiset(AllIds(AfterCompleteSession(s, id, settings, timer, now))) == multiset(AllIds(s))
  {
    var i := ListOps.FindIndex(s.pendingSessions, HasId(id));
    if i >= 0 {
      var r := AfterCompleteSession(s, id, settings, timer, now);
      var target := s.pendingSessions[i];
      var rest := ListOps.RemoveAt(s.pendingSessions, i);
      PendingIdsRemoveAt(s.pendingSessions, i);
      PendingIdsStampHead(rest, now);
      var length := ActualLength(timer, target.sessionStartDate, now, settings.sessionLength);
      CompletedIdsAppend(s.completedSessions, Completion(target, now, length));
      assert PendingIds(r.pendingSessions) == PendingIds(rest);
      assert CompletedIds(r.completedSessions) == CompletedIds(s.completedSessions) + [target.id];
    }
  }

  /** The corrected completion moves identifiers as the written one does. */
  lemma {:induction false} CompleteIntendedKeepsIds(s: SessionState, id: string, settings: PomodoroSettings,
                                                    timer: TimerSettings, now: int)
    ensures multiset(AllIds(AfterCompleteSessionIntended(s, id, settings, timer, now))) == multiset(AllIds(s))
  {
    var r, w := AfterCompleteSessionIntended(s, id, settings, timer, now), AfterCompleteSession(s, id, settings, timer, now);
    CompleteKeepsIds(s, id, settings, timer, now);
    if InQueue(s.pendingSessions, id) {
      assert r.pendingSessions == r.(onBreakProps := None).pendingSessions == w.(onBreakProps := None).pendingSessions;
      assert r.completedSessions == w.completedSessions;
    }
  }

  /** The corrected edit keeps every identifier where it is. */
  lemma {:induction false} EditIntendedKeepsIds(s: SessionState, id: string, updates: SessionUpdates)
    ensures AllIds(AfterEditIntended(s, id, updates)) == AllIds(s)
  {
    var r := AfterEditIntended(s, id, updates);
    assert PendingIds(r.pendingSessions) == PendingIds(s.pendingSessions);
  }

  /** Completing a break keeps every identifier where it is. */
  lemma {:induction false} CompleteBreakKeepsIds(s: SessionState, timer: TimerSettings, now: int)
    ensures AllIds(AfterCompleteBreak(s, timer, now)) == AllIds(s)
  {
    if !NoBreakToComplete(s) {
      PendingIdsStampHead(s.pendingSessions, now);
    }
  }

  /** Clearing the completed sessions only drops identifiers. */
  lemma {:induction false} ClearCompletedKeepsIds(s: SessionState)
    ensures multiset(AllIds(AfterClearCompleted(s))) <= multiset(AllIds(s))
  {
    assert AllIds(AfterClearCompleted(s)) == PendingIds(s.pendingSessions);
  }

  /** Every operation keeps identifiers distinct. */
  lemma {:induction false} ApplyKeepsIdsDistinct(s: SessionState, c: Command, settings: PomodoroSettings, timer: TimerSettings, v: Version)
    requires Allowed(s, c) && IdsDistinct(s)
    ensures IdsDistinct(Apply(s, c, settings, timer, v))
  {
    var r := Apply(s, c, settings, timer, v);
    match c
    case MoveSession(oldIndex, newIndex, now) => MoveKeepsIds(s, oldIndex, newIndex, now);
    case DeleteSession(id) => DeleteKeepsIds(s, id);
    case AddSession(newId, data, now) =>
      AddKeepsIds(s, newId, data, now);
      assert multiset(AllIds(s))[newId] == 0;
    case CompleteSession(id, now) =>
      if v.AsWritten? {
        CompleteKeepsIds(s, id, settings, timer, now);
      } else {
        CompleteIntendedKeepsIds(s, id, settings, timer, now);
      }
    case CompleteBreak(now) => CompleteBreakKeepsIds(s, timer, now);
    case EditSession(id, updates) =>
      if v.Corrected? {
        EditIntendedKeepsIds(s, id, updates);
      }
    case DeleteAllCompletedSessions => ClearCompletedKeepsIds(s);
    case DeleteAllSessions => assert AllIds(r) == [];
    case ResetStartTimes(now) =>
      PendingIdsStampHead(s.pendingSessions, now);
      assert AllIds(r) == AllIds(s);
  }

  /** Whether every command of a run is allowed in the state it meets. */
  predicate RunAllowed(s: SessionState, cs: seq<Command>, settings: PomodoroSettings, timer: TimerSettings, v: Version)
    decreases |cs|
  {
    |cs| == 0 || (Allowed(s, cs[0]) && RunAllowed(Apply(s, cs[0], settings, timer, v), cs[1..], settings, timer, v))
  }

  /** The state after a run of commands, issued one after the other. */
  function Run(s: SessionState, cs: seq<Command>, settings: PomodoroSettings, timer: TimerSettings, v: Version): SessionState
    requires RunAllowed(s, cs, settings, timer, v)
    decreases |cs|
  {
    if |cs| == 0 then s else Run(Apply(s, cs[0], settings, timer, v), cs[1..], settings, timer, v)
  }

  /** No run of operations, as written or as corrected, ever makes two sessions share an identifier. */
  lemma {:induction false} RunKeepsIdsDistinct(s: SessionState, cs: seq<Command>, settings: PomodoroSettings, timer: TimerSettings, v: Version)
    requires RunAllowed(s, cs, settings, timer, v) && IdsDistinct(s)
    ensures IdsDistinct(Run(s, cs, settings, timer, v))
    decreases |cs|
  {
    if |cs| > 0 {
      ApplyKeepsIdsDistinct(s, cs[0], settings, timer, v);
      RunKeepsIdsDistinct(Apply(s, cs[0], settings, timer, v), cs[1..], settings, timer, v);
    }
  }

  /**
   * With distinct identifiers, ending a break records its length on the last
   * completed session and on no other.
   */
  lemma {:induction false} BreakGoesToLastSession(s: SessionState, timer: TimerSettings, now: int)
    requires IdsDistinct(s) && !NoBreakToComplete(s) && |s.completedSessions| > 0
    ensures var r, n := AfterCompleteBreak(s, timer, now), |s.completedSessions|;
      && r.completedSessions[..n - 1] == s.completedSessions[..n - 1]
      && r.completedSessions[n - 1] == s.completedSessions[n - 1].(breakAfterLength := Some(r.completedBreaks[|s.completedBreaks|].minutesDuration))
  {
    var cs := s.completedSessions;
    var n := |cs|;
    forall k | 0 <= k < n - 1
      ensures cs[k].id != cs[n - 1].id
    {
      if cs[k].id == cs[n - 1].id {
        var ids := AllIds(s);
        assert ids[|s.pendingSessions| + k] == ids[|s.pendingSessions| + n - 1];
        TwoPositions(ids, |s.pendingSessions| + k, |s.pendingSessions| + n - 1);
      }
    }
  }

  // ---------------------------------------------------------------------------
  // The head's start date
  // ---------------------------------------------------------------------------

  /** The session in progress, at the head of a non-empty queue, has a start date. */
  predicate HeadStamped(s: SessionState)
  {
    |s.pendingSessions| > 0 ==> s.pendingSessions[0].sessionStartDate.Some?
  }

  /**
   * Whether a command deletes the session at the head of the queue. The
   * store lets any session be deleted; the planner's delete button sits only
   * on cards other than the session in progress, but the Dismiss button of
   * that session's own card may be wired to the same delete.
   */
  predicate DeletesHead(s: SessionState, c: Command)
  {
    c.DeleteSession? && |s.pendingSessions| > 0 && s.pendingSessions[0].id == c.id
  }

  /** A move keeps the head stamped: either it restamps the head, or the head stays where it is. */
  lemma {:induction false} MoveKeepsHeadStamped(s: SessionState, oldIndex: nat, newIndex: nat, now: int)
    requires oldIndex < |s.pendingSessions| && newIndex < |s.pendingSessions| && HeadStamped(s)
    ensures HeadStamped(AfterMove(s, oldIndex, newIndex, now))
  {
    if !MoveRestampsHead(oldIndex, newIndex) {
      ListOps.MoveAt(s.pendingSessions, oldIndex, newIndex, 0);
      assert ListOps.MovedFrom(oldIndex, newIndex, 0) == 0;
    }
  }

  /** Deleting any session but the head keeps the head, and so its start date. */
  lemma {:induction false} DeleteOtherKeepsHeadStamped(s: SessionState, id: string)
    requires HeadStamped(s) && (|s.pendingSessions| > 0 ==> s.pendingSessions[0].id != id)
    ensures HeadStamped(AfterDelete(s, id))
    ensures |s.pendingSessions| > 0 ==> AfterDelete(s, id).pendingSessions[0] == s.pendingSessions[0]
  {
    if |s.pendingSessions| > 0 {
      var ps := s.pendingSessions;
      assert HasOtherId(id)(ps[0]);
      assert ListOps.Filter(ps, HasOtherId(id)) == [ps[0]] + ListOps.Filter(ps[1..], HasOtherId(id));
    }
  }

  /** Completing a session, as written or as corrected, stamps the next head. */
  lemma {:induction false} CompleteKeepsHeadStamped(s: SessionState, id: string, settings: PomodoroSettings,
                                                    timer: TimerSettings, now: int)
    requires HeadStamped(s)
    ensures HeadStamped(AfterCompleteSession(s, id, settings, timer, now))
    ensures HeadStamped(AfterCompleteSessionIntended(s, id, settings, timer, now))
  {
    if InQueue(s.pendingSessions, id) {
      var r, w := AfterCompleteSessionIntended(s, id, settings, timer, now), AfterCompleteSession(s, id, settings, timer, now);
      assert r.pendingSessions == r.(onBreakProps := None).pendingSessions == w.(onBreakProps := None).pendingSessions;
    }
  }

  /** Every operation but deleting the head keeps the head stamped. */
  lemma {:induction false} ApplyKeepsHeadStamped(s: SessionState, c: Command, settings: PomodoroSettings, timer: TimerSettings, v: Version)
    requires Allowed(s, c) && !DeletesHead(s, c) && HeadStamped(s)
    ensures HeadStamped(Apply(s, c, settings, timer, v))
  {
    var r := Apply(s, c, settings, timer, v);
    match c
    case MoveSession(oldIndex, newIndex, now) => MoveKeepsHeadStamped(s, oldIndex, newIndex, now);
    case DeleteSession(id) => DeleteOtherKeepsHeadStamped(s, id);
    case AddSession(newId, data, now) =>
      if |s.pendingSessions| > 0 {
        assert r.pendingSessions[0] == r.pendingSessions[..|s.pendingSessions|][0];
      }
    case CompleteSession(id, now) => CompleteKeepsHeadStamped(s, id, settings, timer, now);
    case CompleteBreak(now) =>
    case EditSession(id, updates) =>
    case DeleteAllCompletedSessions =>
    case DeleteAllSessions =>
    case ResetStartTimes(now) =>
  }

  /**
   * Whether every command of a run is allowed in the state it meets and
   * none deletes the session in progress.
   */
  predicate RunSparesHead(s: SessionState, cs: seq<Command>, settings: PomodoroSettings, timer: TimerSettings, v: Version)
    decreases |cs|
  {
    |cs| == 0 ||
    (Allowed(s, cs[0]) && !DeletesHead(s, cs[0]) && RunSparesHead(Apply(s, cs[0], settings, timer, v), cs[1..], settings, timer, v))
  }

  /**
   * Along any run with no delete of the session in progress, as written or as
   * corrected, the session in progress always has a start date.
   */
  lemma {:induction false} RunKeepsHeadStamped(s: SessionState, cs: seq<Command>, settings: PomodoroSettings, timer: TimerSettings, v: Version)
    requires RunSparesHead(s, cs, settings, timer, v) && HeadStamped(s)
    ensures RunAllowed(s, cs, settings, timer, v) && HeadStamped(Run(s, cs, settings, timer, v))
    decreases |cs|
  {
    if |cs| > 0 {
      ApplyKeepsHeadStamped(s, cs[0], settings, timer, v);
      RunKeepsHeadStamped(Apply(s, cs[0], settings, timer, v), cs[1..], settings, timer, v);
    }
  }

  /** Deleting the head, which the store allows, leaves the next session in progress without a start date. */
  lemma DeleteHeadUnstamps()
    ensures var s := SessionState([PendingSession("a", "A", None, Some(1)), PendingSession("b", "B", None, None)], [], [], None);
      HeadStamped(s) && DeletesHead(s, DeleteSession("a")) && !HeadStamped(AfterDelete(s, "a"))
  {
    var ps := [PendingSession("a", "A", None, Some(1)), PendingSession("b", "B", None, None)];
    assert !HasOtherId("a")(ps[0]) && HasOtherId("a")(ps[1]);
    assert ListOps.Filter(ps, HasOtherId("a")) == [ps[1]] by {
      assert ps[1..] == [ps[1]];
      assert ListOps.Filter([ps[1]], HasOtherId("a")) == [ps[1]];
    }
  }

  /** Moving the head back into the queue restamps the new head and leaves the old one its start date. */
  lemma MoveHeadAwayKeepsItsDate(s: SessionState, newIndex: nat, now: int)
    requires 0 < newIndex < |s.pendingSessions|
    ensures var r := AfterMove(s, 0, newIndex, now);
      r.pendingSessions[newIndex] == s.pendingSessions[0] && r.pendingSessions[0].sessionStartDate == Some(now)
  {
  }

  /**
   * As written, completing a session while another waits both restamps the
   * next session and opens a break, whatever the settings.
   */
  lemma {:induction false} CompletionStampsAndBreaks(s: SessionState, settings: PomodoroSettings, timer: TimerSettings, now: int)
    requires |s.pendingSessions| >= 2
    ensures var r := AfterCompleteSession(s, s.pendingSessions[0].id, settings, timer, now);
      r.pendingSessions[0].sessionStartDate == Some(now) && r.onBreakProps.Some?
  {
    assert HasId(s.pendingSessions[0].id)(s.pendingSessions[0]);
  }

  // ---------------------------------------------------------------------------
  // Inverses and idempotence
  // ---------------------------------------------------------------------------

  /** Deleting a session just added, under an identifier not yet queued, restores the state. */
  lemma {:induction false} DeleteUndoesAdd(s: SessionState, newId: string, data: SessionData, now: int)
    requires !InQueue(s.pendingSessions, newId)
    ensures AfterDelete(AfterAdd(s, newId, data, now), newId) == s
  {
    var added := AfterAdd(s, newId, data, now).pendingSessions;
    var last := added[|s.pendingSessions|];
    assert added == s.pendingSessions + [last];
    ListOps.FilterConcat(s.pendingSessions, [last], HasOtherId(newId));
    assert ListOps.Filter([last], HasOtherId(newId)) == [];
    assert ListOps.Filter(s.pendingSessions, HasOtherId(newId)) == s.pendingSessions;
  }

  /** Deleting the same identifier twice is deleting it once. */
  lemma DeleteIsIdempotent(s: SessionState, id: string)
    ensures AfterDelete(AfterDelete(s, id), id) == AfterDelete(s, id)
  {
    ListOps.FilterIdempotent(s.pendingSessions, HasOtherId(id));
  }

  /** Moving a session back where it came from restores what is queued and in which order. */
  lemma {:induction false} MoveBackRestoresQueue(s: SessionState, oldIndex: nat, newIndex: nat, now: int, later: int)
    requires oldIndex < |s.pendingSessions| && newIndex < |s.pendingSessions|
    ensures var r := AfterMove(AfterMove(s, oldIndex, newIndex, now), newIndex, oldIndex, later);
      Unstamped(r.pendingSessions) == Unstamped(s.pendingSessions)
      && r.completedSessions == s.completedSessions && r.completedBreaks == s.completedBreaks
      && r.onBreakProps == s.onBreakProps
  {
    var ps := s.pendingSessions;
    var once := AfterMove(s, oldIndex, newIndex, now).pendingSessions;
    var moved := ListOps.Move(ps, oldIndex, newIndex);
    assert Unstamped(once) == Unstamped(moved);
    UnstampedMove(ps, oldIndex, newIndex);
    UnstampedMove(once, newIndex, oldIndex);
    ListOps.MoveBack(Unstamped(ps), oldIndex, newIndex);
  }

  /** Resetting the timers twice at the same instant is resetting them once. */
  lemma ResetIsIdempotent(s: SessionState, now: int)
    ensures AfterResetStartTimes(AfterResetStartTimes(s, now), now) == AfterResetStartTimes(s, now)
  {
  }

  // ---------------------------------------------------------------------------
  // Completing sessions and breaks
  // ---------------------------------------------------------------------------

  /**
   * With breaks enabled, the written completion is the corrected one: the
   * two differ only in the break a disabled setting should not open.
   */
  lemma CompleteVersionsAgree(s: SessionState, id: string, settings: PomodoroSettings, timer: TimerSettings, now: int)
    requires settings.breaksEnabled
    ensures AfterCompleteSession(s, id, settings, timer, now) == AfterCompleteSessionIntended(s, id, settings, timer, now)
  {
  }

  /** Completing the head session and then the break that follows, as written or as corrected. */
  function CompleteHeadThenBreak(s: SessionState, settings: PomodoroSettings, timer: TimerSettings, now: int, v: Version): SessionState
    requires |s.pendingSessions| > 0
  {
    AfterCompleteBreak(Apply(s, CompleteSession(s.pendingSessions[0].id, now), settings, timer, v), timer, now)
  }

  /**
   * With the timer not measuring, completing the head while more sessions
   * wait, and then the break, adds one completed session and one completed
   * break whose length is the cadence's and is recorded on that session.
   */
  lemma {:induction false} CompleteThenBreak(s: SessionState, settings: PomodoroSettings, timer: TimerSettings, now: int, v: Version)
    requires IdsDistinct(s) && |s.pendingSessions| >= 2
    requires !(timer.enabled && timer.useTimerForStats)
    requires Utils.GetBreakLength(settings, |s.completedBreaks|) != 0
    ensures var r, length := CompleteHeadThenBreak(s, settings, timer, now, v), Utils.GetBreakLength(settings, |s.completedBreaks|);
      && |r.pendingSessions| == |s.pendingSessions| - 1
      && r.onBreakProps.None?
      && r.completedBreaks == s.completedBreaks + [CompletedBreak(length, now, now)]
      && |r.completedSessions| == |s.completedSessions| + 1
      && r.completedSessions[..|s.completedSessions|] == s.completedSessions
      && r.completedSessions[|s.completedSessions|].id == s.pendingSessions[0].id
      && r.completedSessions[|s.completedSessions|].breakAfterLength == Some(length)
      && r.pendingSessions[0].sessionStartDate == Some(now)
  {
    var head := s.pendingSessions[0];
    assert HasId(head.id)(s.pendingSessions[0]);
    CompleteVersionsAgree(s, head.id, settings, timer, now);
    var mid := AfterCompleteSessionIntended(s, head.id, settings, timer, now);
    ApplyKeepsIdsDistinct(s, CompleteSession(head.id, now), settings, timer, Corrected);
    BreakGoesToLastSession(mid, timer, now);
    assert mid.completedSessions[..|s.completedSessions|] == s.completedSessions;
  }

  /** One round on a queue of two or more, off break, with the timer not measuring. */
  lemma {:induction false} OneRound(s: SessionState, settings: PomodoroSettings, timer: TimerSettings, now: int, v: Version)
    requires |s.pendingSessions| >= 2 && s.onBreakProps.None?
    requires !(timer.enabled && timer.useTimerForStats)
    requires Utils.GetBreakLength(settings, |s.completedBreaks|) != 0
    ensures FollowsCadence(s, CompleteHeadThenBreak(s, settings, timer, now, v), settings, now, 1)
  {
    var id := s.pendingSessions[0].id;
    assert HasId(id)(s.pendingSessions[0]);
    CompleteVersionsAgree(s, id, settings, timer, now);
    var mid := AfterCompleteSessionIntended(s, id, settings, timer, now);
    assert Apply(s, CompleteSession(id, now), settings, timer, v) == mid;
    var length := Utils.GetBreakLength(settings, |s.completedBreaks|);
    assert mid.onBreakProps == Some(BreakProps(now, length)) && mid.completedBreaks == s.completedBreaks;
    assert ActualLength(timer, Some(now), now, length) == length;
    assert CadenceBreaks(settings, now, |s.completedBreaks|, 1) == [CompletedBreak(length, now, now)];
  }

  /** A round, or nothing once the queue is empty. */
  function Round(s: SessionState, settings: PomodoroSettings, timer: TimerSettings, now: int, v: Version): SessionState
  {
    if |s.pendingSessions| == 0 then s else CompleteHeadThenBreak(s, settings, timer, now, v)
  }

  /** `step` applied `n` times. */
  function Iterate(s: SessionState, step: SessionState -> SessionState, n: nat): SessionState
    decreases n
  {
    if n == 0 then s else step(Iterate(s, step, n - 1))
  }

  /** `n` rounds of completing the head session and then its break. */
  function Rounds(s: SessionState, settings: PomodoroSettings, timer: TimerSettings, now: int, n: nat, v: Version): SessionState
  {
    Iterate(s, (x: SessionState) => Round(x, settings, timer, now, v), n)
  }

  /** Whether every break the cadence can give lasts a positive number of minutes. */
  predicate BreaksLast(settings: PomodoroSettings)
  {
    settings.breaksEnabled && settings.breakLength > 0
    && (settings.longerBreaksEnabled ==> settings.longerBreaks.length > 0)
  }

  lemma BreaksLastNonZero(settings: PomodoroSettings, count: nat)
    requires BreaksLast(settings)
    ensures Utils.GetBreakLength(settings, count) > 0
  {
  }

  /** The breaks the cadence gives for the `n` breaks that follow `m` earlier ones, each begun and ended at `now`. */
  function CadenceBreaks(settings: PomodoroSettings, now: int, m: nat, n: nat): (r: seq<CompletedBreak>)
    ensures |r| == n
    decreases n
  {
    if n == 0 then [] else [CompletedBreak(Utils.GetBreakLength(settings, m), now, now)] + CadenceBreaks(settings, now, m + 1, n - 1)
  }

  /**
   * `r` follows `s` by `n` rounds on the cadence: `n` fewer sessions queued,
   * no break running, and the cadence's `n` next breaks appended.
   */
  predicate FollowsCadence(s: SessionState, r: SessionState, settings: PomodoroSettings, now: int, n: nat)
  {
    && |r.pendingSessions| == |s.pendingSessions| - n
    && r.onBreakProps.None?
    && r.completedBreaks == s.completedBreaks + CadenceBreaks(settings, now, |s.completedBreaks|, n)
  }

  /** The cadence's breaks one at a time: the `n + 1` next breaks are the `n` next ones and one more. */
  lemma {:induction false} CadenceBreaksSnoc(settings: PomodoroSettings, now: int, m: nat, n: nat)
    ensures CadenceBreaks(settings, now, m, n + 1) ==
              CadenceBreaks(settings, now, m, n) + [CompletedBreak(Utils.GetBreakLength(settings, m + n), now, now)]
    decreases n
  {
    if n > 0 {
      CadenceBreaksSnoc(settings, now, m + 1, n - 1);
    }
  }

  /** `n` rounds on the cadence followed by one more are `n + 1` rounds on it. */
  lemma {:induction false} FollowsCadenceStep(s: SessionState, p: SessionState, r: SessionState, settings: PomodoroSettings, now: int, n: nat)
    requires FollowsCadence(s, p, settings, now, n) && FollowsCadence(p, r, settings, now, 1)
    ensures FollowsCadence(s, r, settings, now, n + 1)
  {
    CadenceBreaksSnoc(settings, now, |s.completedBreaks|, n);
  }

  /**
   * Any step that, from a state off break with two or more sessions queued,
   * takes one round on the cadence, takes `n` rounds on it when applied `n`
   * times while sessions remain.
   */
  lemma {:induction false} IterateFollowsCadence(s: SessionState, step: SessionState -> SessionState,
                                                 settings: PomodoroSettings, now: int, n: nat)
    requires |s.pendingSessions| > n && s.onBreakProps.None?
    requires forall x: SessionState :: |x.pendingSessions| >= 2 && x.onBreakProps.None? ==> FollowsCadence(x, step(x), settings, now, 1)
    ensures FollowsCadence(s, Iterate(s, step, n), settings, now, n)
    decreases n
  {
    if n > 0 {
      var p := Iterate(s, step, n - 1);
      IterateFollowsCadence(s, step, settings, now, n - 1);
      FollowsCadenceStep(s, p, step(p), settings, now, n - 1);
    }
  }

  /** While sessions remain, rounds from a state off break follow the cadence, as written or as corrected. */
  lemma RoundsFollowCadence(s: SessionState, settings: PomodoroSettings, timer: TimerSettings, now: int, n: nat, v: Version)
    requires |s.pendingSessions| > n && s.onBreakProps.None?
    requires !(timer.enabled && timer.useTimerForStats) && BreaksLast(settings)
    ensures FollowsCadence(s, Rounds(s, settings, timer, now, n, v), settings, now, n)
  {
    var step := (x: SessionState) => Round(x, settings, timer, now, v);
    forall x: SessionState | |x.pendingSessions| >= 2 && x.onBreakProps.None?
      ensures FollowsCadence(x, step(x), settings, now, 1)
    {
      BreaksLastNonZero(settings, |x.completedBreaks|);
      OneRound(x, settings, timer, now, v);
    }
    IterateFollowsCadence(s, step, settings, now, n);
  }

  /** The default lengths (25/5, a longer break of 15 every third break) with both kinds of break on. */
  const EveryThirdLong := PomodoroSettings(25, 5, true, true, LongerBreaks(3, 15))

  /** Under `EveryThirdLong`, the first three breaks last 5, 5 and 15 minutes. */
  lemma FirstThreeBreaks(now: int)
    ensures CadenceBreaks(EveryThirdLong, now, 0, 3) ==
              [CompletedBreak(5, now, now), CompletedBreak(5, now, now), CompletedBreak(15, now, now)]
  {
    Utils.DefaultCadence(EveryThirdLong);
    assert CadenceBreaks(EveryThirdLong, now, 2, 1) == [CompletedBreak(15, now, now)];
    assert CadenceBreaks(EveryThirdLong, now, 1, 2) == [CompletedBreak(5, now, now)] + CadenceBreaks(EveryThirdLong, now, 2, 1);
  }

  /**
   * Under `EveryThirdLong`, with four sessions queued and no break taken yet, three
   * rounds give breaks of 5, 5 and 15 minutes and leave one session queued.
   */
  lemma ThirdBreakIsLong(s: SessionState, timer: TimerSettings, now: int, v: Version)
    requires |s.pendingSessions| == 4 && s.onBreakProps.None? && |s.completedBreaks| == 0
    requires !(timer.enabled && timer.useTimerForStats)
    ensures var r := Rounds(s, EveryThirdLong, timer, now, 3, v);
      && |r.pendingSessions| == 1
      && r.onBreakProps.None?
      && r.completedBreaks == [CompletedBreak(5, now, now), CompletedBreak(5, now, now), CompletedBreak(15, now, now)]
  {
    RoundsFollowCadence(s, EveryThirdLong, timer, now, 3, v);
    FirstThreeBreaks(now);
  }

  /**
   * Moving the third of four sessions to the front stamps it as the new head;
   * the former head moves to index 1 with its start date unchanged.
   */
  lemma MoveToFront(s: SessionState, now: int)
    requires |s.pendingSessions| == 4
    ensures var r := AfterMove(s, 2, 0, now);
      && SameSession(r.pendingSessions[0], s.pendingSessions[2])
      && r.pendingSessions[0].sessionStartDate == Some(now)
      && r.pendingSessions[1] == s.pendingSessions[0]
  {
    ListOps.MoveAt(s.pendingSessions, 2, 0, 1);
  }

  /** A session started exactly 30 minutes ago counts 30 minutes when the timer measures, whatever the nominal length. */
  lemma ThirtyMinutesMeasured(start: int, nominal: int)
    ensures ActualLength(TimerSettings(true, true), Some(start), start + 30 * 60000, nominal) == 30
  {
  }

  // ---------------------------------------------------------------------------
  // Findings
  // ---------------------------------------------------------------------------

  /** As written, an edit of a queued session leaves its title as it was. */
  lemma EditIsLost(now: int)
    ensures var s := SessionState([PendingSession("a", "old", None, Some(now))], [], [], None);
      var updates := SessionUpdates(Some("new"), None);
      && AfterEdit(s, "a", updates).pendingSessions[0].title == "old"
      && AfterEditIntended(s, "a", updates).pendingSessions[0].title == "new"
  {
    var s := SessionState([PendingSession("a", "old", None, Some(now))], [], [], None);
    assert HasId("a")(s.pendingSessions[0]);
  }

  /**
   * The settings stored by default name the lengths and the frequency but
   * neither flag, so both read as false.
   */
  const StoredDefaults := PomodoroSettings(25, 5, false, false, LongerBreaks(3, 15))

  /** Under the stored defaults every break the cadence gives lasts 0 minutes. */
  lemma StoredDefaultsGiveZeroBreaks(count: nat)
    ensures Utils.GetBreakLength(StoredDefaults, count) == 0
  {
  }

  /**
   * As written, with breaks disabled, completing a session while others wait
   * opens a break of 0 minutes, and completing a break then does nothing,
   * at any time: the store stays on that break.
   */
  lemma {:induction false} DisabledBreaksStick(s: SessionState, settings: PomodoroSettings, timer: TimerSettings, now: int, later: int)
    requires !settings.breaksEnabled && |s.pendingSessions| >= 2
    ensures var r := AfterCompleteSession(s, s.pendingSessions[0].id, settings, timer, now);
      && r.onBreakProps == Some(BreakProps(now, 0))
      && AfterCompleteBreak(r, timer, later) == r
  {
    assert HasId(s.pendingSessions[0].id)(s.pendingSessions[0]);
  }

  /**
   * With the corrected completion, any break it opens under positive break
   * lengths is one that completing a break ends.
   */
  lemma {:induction false} IntendedBreaksCanEnd(s: SessionState, id: string, settings: PomodoroSettings,
                                                timer: TimerSettings, now: int, later: int)
    requires InQueue(s.pendingSessions, id)
    requires settings.breakLength > 0 && settings.longerBreaks.length > 0
    ensures var r := AfterCompleteSessionIntended(s, id, settings, timer, now);
      r.onBreakProps.Some? ==> AfterCompleteBreak(r, timer, later).onBreakProps.None?
  {
  }
}
