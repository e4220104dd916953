/**
 * The planner component: a list of sessions (identifier and title), the text
 * typed into the new-session field, and the index of the card being dragged.
 * Its handlers replace the list the way React state is replaced: by a new
 * value computed from the current one.
 */
module Planner {

  import opened Wrappers
  import ListOps

  datatype Session = Session(id: string, title: string)

  /**
   * The characters JavaScript's `trim()` removes: the white space characters
   * (tab, vertical tab, form feed, space, no-break space, the byte order mark
   * and the other space separators) and the line terminators.
   */
  predicate IsJsWhitespace(c: char)
  {
    c == '\t' || c == '\U{000B}' || c == '\U{000C}' || c == ' ' || c == '\U{00A0}' || c == '\U{FEFF}'
    || c == '\U{1680}' || ('\U{2000}' <= c <= '\U{200A}') || c == '\U{202F}' || c == '\U{205F}' || c == '\U{3000}'
    || c == '\n' || c == '\r' || c == '\U{2028}' || c == '\U{2029}'
  }

  predicate AllWhitespace(s: string)
  {
    forall k :: 0 <= k < |s| ==> IsJsWhitespace(s[k])
  }

  /** How many white space characters `s` begins with. */
  function LeadingSpace(s: string): (n: nat)
    ensures n <= |s|
    ensures forall k :: 0 <= k < n ==> IsJsWhitespace(s[k])
    ensures n < |s| ==> !IsJsWhitespace(s[n])
  {
    if |s| == 0 || !IsJsWhitespace(s[0]) then 0 else 1 + LeadingSpace(s[1..])
  }

  /** Where the white space that `s` ends with begins. */
  function TrailingSpace(s: string): (n: nat)
    ensures n <= |s|
    ensures forall k :: n <= k < |s| ==> IsJsWhitespace(s[k])
    ensures n > 0 ==> !IsJsWhitespace(s[n - 1])
  {
    if |s| == 0 || !IsJsWhitespace(s[|s| - 1]) then |s| else TrailingSpace(s[..|s| - 1])
  }

  /** `s.trim()`: `s` without its leading and its trailing white space. */
  function Trim(s: string): (r: string)
    ensures |r| <= |s|
    ensures |r| > 0 ==> !IsJsWhitespace(r[0]) && !IsJsWhitespace(r[|r| - 1])
    ensures exists i, j :: 0 <= i <= j <= |s| && r == s[i..j] && AllWhitespace(s[..i]) && AllWhitespace(s[j..])
  {
    var i := LeadingSpace(s);
    var t := s[i..];
    var j := i + TrailingSpace(t);
    assert t[..TrailingSpace(t)] == s[i..j];
    assert AllWhitespace(s[..i]);
    assert s[j..] == t[TrailingSpace(t)..];
    t[..TrailingSpace(t)]
  }

  /** A title trims to nothing exactly when it is all white space. */
  lemma {:induction false} TrimBlank(s: string)
    ensures Trim(s) == [] <==> AllWhitespace(s)
  {
    var i := LeadingSpace(s);
    var t := s[i..];
    if Trim(s) == [] {
      assert TrailingSpace(t) == 0;
      assert |t| == 0;
    }
  }

  /** Trimming twice is trimming once. */
  lemma {:induction false} TrimIdempotent(s: string)
    ensures Trim(Trim(s)) == Trim(s)
  {
    NoEdgeWhitespaceTrim(Trim(s));
  }

  /** A string with no white space at either end trims to itself. */
  lemma NoEdgeWhitespaceTrim(s: string)
    requires |s| > 0 ==> !IsJsWhitespace(s[0]) && !IsJsWhitespace(s[|s| - 1])
    ensures Trim(s) == s
  {
  }

  /** The component's state. */
  class SessionPlanner {
    var sessions: seq<Session>
    var newSessionTitle: string
    /** `null` while no card has been picked up. */
    var draggedIndex: Option<nat>

    /** The initial state: `initial` listed, an empty input, nothing dragged. */
    constructor(initial: seq<Session>)
      ensures sessions == initial && newSessionTitle == "" && draggedIndex == None
    {
      sessions := initial;
      newSessionTitle := "";
      draggedIndex := None;
    }

    /** `handleDragStart`: the card at `index` is picked up. */
    method HandleDragStart(index: nat)
      modifies this
      ensures draggedIndex == Some(index)
      ensures sessions == old(sessions) && newSessionTitle == old(newSessionTitle)
    {
      draggedIndex := Some(index);
    }

    /**
     * `handleDragOver`: the dragged card passes over the card at `index`.
     * Nothing happens when no card is dragged or it is already there;
     * otherwise the dragged card moves to `index`, which it occupies from then on.
     */
    method HandleDragOver(index: nat)
      requires index < |sessions|
      requires draggedIndex.Some? ==> draggedIndex.value < |sessions|
      modifies this
      ensures newSessionTitle == old(newSessionTitle)
      ensures old(draggedIndex).None? || old(draggedIndex) == Some(index) ==>
                sessions == old(sessions) && draggedIndex == old(draggedIndex)
      ensures old(draggedIndex).Some? && old(draggedIndex) != Some(index) ==>
                && sessions == ListOps.Move(old(sessions), old(draggedIndex).value, index)
                && sessions[index] == old(sessions)[old(draggedIndex).value]
                && multiset(sessions) == multiset(old(sessions))
                && draggedIndex == Some(index)
    {
      if draggedIndex.None? || draggedIndex.value == index {
        return;
      }
      var from := draggedIndex.value;
      var newSessions := sessions;
      var draggedSession := newSessions[from];
      newSessions := ListOps.RemoveAt(newSessions, from);
      newSessions := ListOps.InsertAt(newSessions, index, draggedSession);
      sessions := newSessions;
      draggedIndex := Some(index);
    }

    /** `handleDismiss`: the first card goes; an empty list stays empty. */
    method HandleDismiss()
      modifies this
      ensures |old(sessions)| > 0 ==> sessions == old(sessions)[1..]
      ensures |old(sessions)| == 0 ==> sessions == old(sessions)
      ensures newSessionTitle == old(newSessionTitle) && draggedIndex == old(draggedIndex)
    {
      if |sessions| > 0 {
        sessions := sessions[1..];
      }
    }

    /** `handleDelete`: every card with identifier `id` goes; the others keep their order. */
    method HandleDelete(id: string)
      modifies this
      ensures sessions == ListOps.Filter(old(sessions), (s: Session) => s.id != id)
      ensures forall s :: s in sessions <==> s in old(sessions) && s.id != id
      ensures newSessionTitle == old(newSessionTitle) && draggedIndex == old(draggedIndex)
    {
      sessions := ListOps.Filter(sessions, (s: Session) => s.id != id);
    }

    /** The input's `onChange`. */
    method SetNewSessionTitle(value: string)
      modifies this
      ensures newSessionTitle == value
      ensures sessions == old(sessions) && draggedIndex == old(draggedIndex)
    {
      newSessionTitle := value;
    }

    /**
     * `handleAddSession`: with a title that is not blank, a card with the
     * trimmed title is appended and the input cleared; otherwise nothing
     * changes. `newId` stands for `Date.now().toString()`.
     */
    method HandleAddSession(newId: string)
      modifies this
      ensures Trim(old(newSessionTitle)) != [] ==>
                sessions == old(sessions) + [Session(newId, Trim(old(newSessionTitle)))] && newSessionTitle == ""
      ensures Trim(old(newSessionTitle)) == [] ==>
                sessions == old(sessions) && newSessionTitle == old(newSessionTitle)
      ensures draggedIndex == old(draggedIndex)
    {
      var title := Trim(newSessionTitle);
      if title != [] {
        sessions := sessions + [Session(newId, title)];
        newSessionTitle := "";
      }
    }
  }
}
