/**
 * The array operations the core applies to its lists: `splice` to remove and
 * to insert one element, `arrayMove` (remove at one index, insert at another),
 * `filter` and `findIndex`. Each is a value-level function on sequences; the
 * source copies an array before splicing it, so no caller sees the update in
 * place.
 */
module ListOps {

  /** `a.splice(i, 1)` on a copy of `s`: the list without its element at `i`. */
  function RemoveAt<T>(s: seq<T>, i: nat): (r: seq<T>)
    requires i < |s|
    ensures |r| == |s| - 1
    ensures forall k :: 0 <= k < |r| ==> r[k] == if k < i then s[k] else s[k + 1]
  {
    s[..i] + s[i + 1..]
  }

  /** Removing an element takes exactly one copy of it out of the list's contents. */
  lemma RemoveAtMultiset<T>(s: seq<T>, i: nat)
    requires i < |s|
    ensures multiset(RemoveAt(s, i)) + multiset{s[i]} == multiset(s)
  {
    assert s == s[..i] + [s[i]] + s[i + 1..];
  }

  /** `a.splice(i, 0, x)` on a copy of `s`: `x` inserted so that it lands at index `i`. */
  function InsertAt<T>(s: seq<T>, i: nat, x: T): (r: seq<T>)
    requires i <= |s|
    ensures |r| == |s| + 1 && r[i] == x
    ensures forall k :: 0 <= k < |r| && k != i ==> r[k] == if k < i then s[k] else s[k - 1]
  {
    s[..i] + [x] + s[i..]
  }

  /** Inserting an element adds exactly one copy of it to the list's contents. */
  lemma InsertAtMultiset<T>(s: seq<T>, i: nat, x: T)
    requires i <= |s|
    ensures multiset(InsertAt(s, i, x)) == multiset(s) + multiset{x}
  {
    assert s == s[..i] + s[i..];
  }

  /**
   * The index in the original list of the element that a move from `from` to
   * `to` places at index `k`.
   */
  function MovedFrom(from: nat, to: nat, k: nat): nat
  {
    if k == to then from
    else
      var j := if k < to then k else k - 1;  // index in the list after the removal
      if j < from then j else j + 1
  }

  /**
   * Moving one element: remove it at `from`, then insert it at `to` in what is
   * left (`arrayMove`, and the two splices of a drag-over). `to` is the index
   * the element ends at.
   */
  function Move<T>(s: seq<T>, from: nat, to: nat): (r: seq<T>)
    requires from < |s| && to < |s|
    ensures |r| == |s| && r[to] == s[from]
    ensures multiset(r) == multiset(s)
  {
    RemoveAtMultiset(s, from);
    InsertAtMultiset(RemoveAt(s, from), to, s[from]);
    InsertAt(RemoveAt(s, from), to, s[from])
  }

  /** Where every element of a moved list comes from. */
  lemma {:induction false} MoveAt<T>(s: seq<T>, from: nat, to: nat, k: nat)
    requires from < |s| && to < |s| && k < |s|
    ensures MovedFrom(from, to, k) < |s| && Move(s, from, to)[k] == s[MovedFrom(from, to, k)]
  {
    var removed := RemoveAt(s, from);
    var r := InsertAt(removed, to, s[from]);
    assert r == Move(s, from, to);
    if k < to {
      assert r[k] == removed[k];
    } else if k > to {
      assert r[k] == removed[k - 1];
    }
  }

  /** Moving an element back to where it came from restores the list. */
  lemma {:induction false} MoveBack<T>(s: seq<T>, from: nat, to: nat)
    requires from < |s| && to < |s|
    ensures Move(Move(s, from, to), to, from) == s
  {
    var r := Move(Move(s, from, to), to, from);
    forall k | 0 <= k < |s|
      ensures r[k] == s[k]
    {
      MoveAt(Move(s, from, to), to, from, k);
      MoveAt(s, from, to, MovedFrom(to, from, k));
      MovedFromInverse(from, to, k);
    }
  }

  /** A move and the move back send every index home. */
  lemma MovedFromInverse(from: nat, to: nat, k: nat)
    ensures MovedFrom(from, to, MovedFrom(to, from, k)) == k
  {
  }

  /** A move to the index the element is already at changes nothing. */
  lemma {:induction false} MoveInPlace<T>(s: seq<T>, i: nat)
    requires i < |s|
    ensures Move(s, i, i) == s
  {
    var r := Move(s, i, i);
    forall k | 0 <= k < |s|
      ensures r[k] == s[k]
    {
      MoveAt(s, i, i, k);
      assert MovedFrom(i, i, k) == k;
    }
  }

  /**
   * Two moves of the same element in a row are one move: what a drag that
   * passes over several cards leaves behind depends only on where it began
   * and where it ended.
   */
  lemma {:induction false} MoveCompose<T>(s: seq<T>, a: nat, b: nat, c: nat)
    requires a < |s| && b < |s| && c < |s|
    ensures Move(Move(s, a, b), b, c) == Move(s, a, c)
  {
    var r, q := Move(Move(s, a, b), b, c), Move(s, a, c);
    forall k | 0 <= k < |s|
      ensures r[k] == q[k]
    {
      MoveAt(Move(s, a, b), b, c, k);
      MoveAt(s, a, b, MovedFrom(b, c, k));
      MoveAt(s, a, c, k);
      MovedFromCompose(a, b, c, k);
    }
  }

  /** Where an element comes from after two moves of the same element. */
  lemma MovedFromCompose(a: nat, b: nat, c: nat, k: nat)
    ensures MovedFrom(a, b, MovedFrom(b, c, k)) == MovedFrom(a, c, k)
  {
  }

  /** `s.filter(keep)`: the elements `keep` accepts, in their original order. */
  function Filter<T(!new)>(s: seq<T>, keep: T -> bool): (r: seq<T>)
    ensures |r| <= |s|
    ensures forall x :: x in r <==> x in s && keep(x)
    ensures forall x :: multiset(r)[x] == if keep(x) then multiset(s)[x] else 0
    ensures (forall k :: 0 <= k < |s| ==> keep(s[k])) ==> r == s
  {
    if |s| == 0 then []
    else
      assert s == [s[0]] + s[1..];
      var rest := Filter(s[1..], keep);
      if keep(s[0]) then [s[0]] + rest else rest
  }

  /** Filtering distributes over concatenation: the survivors keep their order. */
  lemma {:induction false} FilterConcat<T(!new)>(a: seq<T>, b: seq<T>, keep: T -> bool)
    ensures Filter(a + b, keep) == Filter(a, keep) + Filter(b, keep)
  {
    if |a| > 0 {
      assert (a + b)[1..] == a[1..] + b;
      FilterConcat(a[1..], b, keep);
    } else {
      assert a + b == b;
    }
  }

  /** Filtering twice with the same test is filtering once. */
  lemma {:induction false} FilterIdempotent<T(!new)>(s: seq<T>, keep: T -> bool)
    ensures Filter(Filter(s, keep), keep) == Filter(s, keep)
  {
    var r := Filter(s, keep);
    assert forall k :: 0 <= k < |r| ==> r[k] in r;
  }

  /**
   * `s.findIndex(p)`: the index of the first element `p` accepts, or -1 when
   * none does.
   */
  function FindIndex<T>(s: seq<T>, p: T -> bool): (r: int)
    ensures -1 <= r < |s|
    ensures r == -1 <==> forall k :: 0 <= k < |s| ==> !p(s[k])
    ensures r >= 0 ==> p(s[r]) && forall k :: 0 <= k < r ==> !p(s[k])
  {
    if |s| == 0 then -1
    else if p(s[0]) then 0
    else
      var i := FindIndex(s[1..], p);
      if i == -1 then -1 else i + 1
  }
}
