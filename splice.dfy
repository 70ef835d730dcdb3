/**
 * The list surgery `onDragEnd` performs (nocode-dashboard/src/App.tsx): copy the
 * layout with `Array.from`, then `splice` it in place. The functions state what
 * JavaScript's `splice` does for the non-negative indices a drag event carries;
 * the methods carry out the copy and the shifting on an array.
 */
module Splice {

  /** Where `splice(i, 0, x)` inserts into a list of length `n`: an index past the end appends. */
  function ClampIndex(i: nat, n: nat): (k: nat)
    ensures k <= n
    ensures k == i || (i > n && k == n)
  {
    if i <= n then i else n
  }

  /** `s.splice(i, 1)` for `i` inside the list: the list without its element at `i`. */
  function Removed<T>(s: seq<T>, i: nat): (r: seq<T>)
    requires i < |s|
    ensures |r| == |s| - 1
    ensures forall j :: 0 <= j < i ==> r[j] == s[j]
    ensures forall j :: i <= j < |r| ==> r[j] == s[j + 1]
  {
    s[..i] + s[i + 1..]
  }

  /** `s.splice(i, 0, x)`: the list with `x` placed at index `i`, clamped to the end. */
  function Inserted<T>(s: seq<T>, i: nat, x: T): (r: seq<T>)
    ensures |r| == |s| + 1
    ensures r[ClampIndex(i, |s|)] == x
  {
    var k := ClampIndex(i, |s|);
    s[..k] + [x] + s[k..]
  }

  /** The reorder of `onDragEnd`: take out the element at `from`, put it back at `to` in the shortened list. */
  function Moved<T>(s: seq<T>, from: nat, to: nat): (r: seq<T>)
    requires from < |s|
    ensures |r| == |s|
    ensures r[ClampIndex(to, |s| - 1)] == s[from]
  {
    Inserted(Removed(s, from), to, s[from])
  }

  /** The element order of `s` is kept in `r` apart from one extra element at `k`. */
  ghost predicate OneInsertedAt<T>(s: seq<T>, r: seq<T>, k: nat)
  {
    |r| == |s| + 1 && k < |r|
    && (forall j :: 0 <= j < k ==> r[j] == s[j])
    && (forall j :: k < j < |r| ==> r[j] == s[j - 1])
  }

  /** An insertion puts `x` at the clamped index and keeps every old element, in order, around it. */
  lemma {:induction false} InsertedShape<T>(s: seq<T>, i: nat, x: T)
    ensures OneInsertedAt(s, Inserted(s, i, x), ClampIndex(i, |s|))
    ensures Inserted(s, i, x)[ClampIndex(i, |s|)] == x
    ensures Removed(Inserted(s, i, x), ClampIndex(i, |s|)) == s
  {
    var k := ClampIndex(i, |s|);
    var r := Inserted(s, i, x);
    assert r[..k] == s[..k];
    assert r[k + 1..] == s[k..];
    assert s == s[..k] + s[k..];
  }

  /** A list with one extra element `x` at the clamped index, and the old ones kept in order around it, is the insertion. */
  lemma InsertedFromShape<T>(s: seq<T>, r: seq<T>, at: nat, x: T)
    requires OneInsertedAt(s, r, ClampIndex(at, |s|)) && r[ClampIndex(at, |s|)] == x
    ensures r == Inserted(s, at, x)
  {
    InsertedShape(s, at, x);
    var q := Inserted(s, at, x);
    forall m | 0 <= m < |r| ensures r[m] == q[m] {
    }
  }

  /** An insertion adds exactly one occurrence of `x` and removes nothing. */
  lemma InsertedMultiset<T>(s: seq<T>, i: nat, x: T)
    ensures multiset(Inserted(s, i, x)) == multiset(s) + multiset{x}
  {
    var k := ClampIndex(i, |s|);
    assert s == s[..k] + s[k..];
  }

  /** A removal drops exactly one occurrence of the removed element. */
  lemma RemovedMultiset<T>(s: seq<T>, i: nat)
    requires i < |s|
    ensures multiset(Removed(s, i)) + multiset{s[i]} == multiset(s)
  {
    assert s == s[..i] + [s[i]] + s[i + 1..];
  }

  /**
   * A reorder is a permutation that lands the moved element at the destination
   * index (clamped to the last position) and keeps every other element in its
   * relative order.
   */
  lemma MovedShape<T>(s: seq<T>, from: nat, to: nat)
    requires from < |s|
    ensures |Moved(s, from, to)| == |s|
    ensures multiset(Moved(s, from, to)) == multiset(s)
    ensures Moved(s, from, to)[ClampIndex(to, |s| - 1)] == s[from]
    ensures Removed(Moved(s, from, to), ClampIndex(to, |s| - 1)) == Removed(s, from)
  {
    InsertedShape(Removed(s, from), to, s[from]);
    InsertedMultiset(Removed(s, from), to, s[from]);
    RemovedMultiset(s, from);
  }

  /** Dropping an element where it was picked up gives the list back unchanged. */
  lemma MovedInPlace<T>(s: seq<T>, i: nat)
    requires i < |s|
    ensures Moved(s, i, i) == s
  {
    assert Removed(s, i)[..i] == s[..i];
    assert Removed(s, i)[i..] == s[i + 1..];
    assert s == s[..i] + [s[i]] + s[i + 1..];
  }

  /** Moving from `from` to `to` and then back from `to` to `from` restores the list, for any two in-range indices. */
  lemma MovedRoundTrip<T>(s: seq<T>, from: nat, to: nat)
    requires from < |s| && to < |s|
    ensures Moved(Moved(s, from, to), to, from) == s
  {
    var t := Removed(s, from);
    InsertedShape(t, to, s[from]);
    assert ClampIndex(to, |t|) == to;
    InsertedShape(t, from, s[from]);
    assert Inserted(t, from, s[from]) == s by {
      assert ClampIndex(from, |t|) == from;
      assert t[..from] == s[..from];
      assert t[from..] == s[from + 1..];
      assert s == s[..from] + [s[from]] + s[from + 1..];
    }
  }

  /**
   * `splice(i, 1)` on the first `len` slots of `a`: the tail shifts one slot
   * left, closing the gap; slots from `len - 1` on are left as they were.
   */
  method SpliceOut<T>(a: array<T>, len: nat, i: nat)
    requires i < len <= a.Length
    modifies a
    ensures a[..len - 1] == Removed(old(a[..len]), i)
    ensures forall m :: len - 1 <= m < a.Length ==> a[m] == old(a[m])
  {
    ghost var s := a[..len];
    var j := i;
    while j < len - 1
      invariant i <= j <= len - 1
      invariant forall m :: 0 <= m < i ==> a[m] == s[m]
      invariant forall m :: i <= m < j ==> a[m] == s[m + 1]
      invariant forall m :: j <= m < a.Length ==> a[m] == old(a[m])
    {
      a[j] := a[j + 1];
      j := j + 1;
    }
    assert a[..len - 1] == Removed(s, i) by {
      forall m | 0 <= m < len - 1 ensures a[..len - 1][m] == Removed(s, i)[m] {
      }
    }
  }

  /**
   * `splice(at, 0, x)` on the first `len` slots of `a`, which has room for one
   * more: the tail from the clamped index shifts one slot right and `x` fills
   * the gap; slots past `len` are left as they were.
   */
  method SpliceIn<T>(a: array<T>, len: nat, at: nat, x: T)
    requires len < a.Length
    modifies a
    ensures a[..len + 1] == Inserted(old(a[..len]), at, x)
    ensures forall m :: len < m < a.Length ==> a[m] == old(a[m])
  {
    ghost var s := a[..len];
    var k := ClampIndex(at, len);
    var j := len;
    while j > k
      invariant k <= j <= len
      invariant forall m :: 0 <= m < j ==> a[m] == s[m]
      invariant forall m :: j < m <= len ==> a[m] == s[m - 1]
      invariant forall m :: len < m < a.Length ==> a[m] == old(a[m])
    {
      a[j] := a[j - 1];
      j := j - 1;
    }
    a[k] := x;
    InsertedFromShape(s, a[..len + 1], at, x);
  }

  /** `Array.from(s)` followed by `splice(at, 0, x)` on the copy. */
  method InsertAt<T>(s: seq<T>, at: nat, x: T) returns (r: seq<T>)
    ensures r == Inserted(s, at, x)
  {
    var n := |s|;
    var a := new T[n + 1](j requires 0 <= j < n + 1 => if j < n then s[j] else x);
    assert a[..n] == s;
    SpliceIn(a, n, at, x);
    r := a[..];
    assert r == a[..n + 1];
  }

  /** `Array.from(s)`, then `splice(from, 1)` and `splice(to, 0, removed)` on the copy. */
  method Reorder<T>(s: seq<T>, from: nat, to: nat) returns (r: seq<T>)
    requires from < |s|
    ensures r == Moved(s, from, to)
  {
    var n := |s|;
    var a := new T[n](j requires 0 <= j < n => s[j]);
    assert a[..n] == s;
    var removed := a[from];
    SpliceOut(a, n, from);
    SpliceIn(a, n - 1, to, removed);
    r := a[..];
    assert r == a[..n];
  }
}
