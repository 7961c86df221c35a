/** Intrusive lists, modelled as sequences of node identities.

    The C code links nodes through `struct ovs_list`; a node sits on a list at
    most once, so a list is a duplicate-free sequence and removing a node is
    removing its one occurrence. */
module Lists {

  ghost predicate NoDup<T>(s: seq<T>) {
    forall i, j | 0 <= i < j < |s| :: s[i] != s[j]
  }

  function IndexOf<T(==)>(s: seq<T>, x: T): (r: nat)
    requires x in s
    ensures r < |s| && s[r] == x && x !in s[..r]
  {
    if s[0] == x then 0 else 1 + IndexOf(s[1..], x)
  }

  /** `ovs_list_remove`: the list without the first occurrence of `x`. */
  function Without<T(==)>(s: seq<T>, x: T): (r: seq<T>)
    ensures x !in s ==> r == s
    ensures x in s ==> |r| == |s| - 1
  {
    if x in s then s[..IndexOf(s, x)] + s[IndexOf(s, x) + 1..] else s
  }

  /** Where position `i` of `Without(s, x)` was in `s`. */
  function OldIndex<T(==)>(s: seq<T>, x: T, i: nat): (r: nat)
    requires i < |Without(s, x)|
    ensures r < |s| && Without(s, x)[i] == s[r]
  {
    if x in s && i >= IndexOf(s, x) then i + 1 else i
  }

  /** Removal keeps the order of what stays. */
  lemma OldIndexMonotone<T>(s: seq<T>, x: T, i: nat, j: nat)
    requires i < j < |Without(s, x)|
    ensures OldIndex(s, x, i) < OldIndex(s, x, j)
  {
  }

  lemma WithoutNoDup<T>(s: seq<T>, x: T)
    requires NoDup(s)
    ensures NoDup(Without(s, x))
    ensures forall y :: y in Without(s, x) <==> y in s && y != x
  {
    var r := Without(s, x);
    forall i, j | 0 <= i < j < |r|
      ensures r[i] != r[j]
    {
      OldIndexMonotone(s, x, i, j);
    }
    forall y
      ensures y in r <==> y in s && y != x
    {
      if y in r {
        var i :| 0 <= i < |r| && r[i] == y;
        var o := OldIndex(s, x, i);
        if x in s { assert o != IndexOf(s, x); }
      }
      if y in s && y != x {
        var i :| 0 <= i < |s| && s[i] == y;
        if x in s {
          var p := IndexOf(s, x);
          assert if i < p then r[i] == y else r[i - 1] == y;
        }
      }
    }
  }

  lemma PushNoDup<T>(s: seq<T>, x: T)
    requires NoDup(s) && x !in s
    ensures NoDup(s + [x])
    ensures forall y :: y in s + [x] <==> y in s || y == x
  {
  }

  /** The node `x` is moved to (or put at) the back. */
  function MoveToBack<T(==)>(s: seq<T>, x: T): (r: seq<T>)
    ensures r != [] && r[|r| - 1] == x
  {
    Without(s, x) + [x]
  }

  lemma MoveToBackNoDup<T>(s: seq<T>, x: T)
    requires NoDup(s)
    ensures NoDup(MoveToBack(s, x))
    ensures forall y :: y in MoveToBack(s, x) <==> y in s || y == x
  {
    WithoutNoDup(s, x);
    PushNoDup(Without(s, x), x);
  }

  lemma InsertNoDup<T>(s: seq<T>, p: nat, x: T)
    requires NoDup(s) && x !in s && p <= |s|
    ensures NoDup(s[..p] + [x] + s[p..])
    ensures forall y :: y in s[..p] + [x] + s[p..] <==> y in s || y == x
  {
    var r := s[..p] + [x] + s[p..];
    assert forall i | 0 <= i < |r| :: r[i] == if i < p then s[i] else if i == p then x else s[i - 1];
    forall y | y in s ensures y in r {
      var i :| 0 <= i < |s| && s[i] == y;
      assert if i < p then r[i] == y else r[i + 1] == y;
    }
  }

  lemma TailNoDup<T>(s: seq<T>)
    requires NoDup(s) && s != []
    ensures NoDup(s[1..]) && s[0] !in s[1..]
    ensures forall y :: y in s <==> y == s[0] || y in s[1..]
  {
    forall y | y in s ensures y == s[0] || y in s[1..] {
      var i :| 0 <= i < |s| && s[i] == y;
      if i > 0 { assert s[1..][i - 1] == y; }
    }
  }

  /** Removing an element from a prefix. */
  lemma WithoutPrefix<T>(s: seq<T>, x: T, n: nat)
    requires n <= |s| && x in s[..n]
    ensures x in s && Without(s, x)[..n - 1] == Without(s[..n], x)
  {
    SameIndex(s, x, n);
    CutAtIndex(s, s[..n], x, IndexOf(s, x), n);
  }

  lemma CutAtIndex<T>(s: seq<T>, t: seq<T>, x: T, p: nat, n: nat)
    requires x in s && x in t && p == IndexOf(s, x) == IndexOf(t, x) && p < n <= |s| && t == s[..n]
    ensures Without(s, x)[..n - 1] == Without(t, x)
  {
    CutAt(s, p, n);
  }

  lemma CutAt<T>(s: seq<T>, p: nat, n: nat)
    requires p < n <= |s|
    ensures (s[..p] + s[p + 1..])[..n - 1] == s[..n][..p] + s[..n][p + 1..]
  {
    var a, b := s[..p], s[p + 1..];
    assert (a + b)[..n - 1] == a + b[..n - 1 - p];
    assert s[..n][..p] == a && s[..n][p + 1..] == b[..n - 1 - p];
  }

  lemma {:induction false} SameIndex<T>(s: seq<T>, x: T, n: nat)
    requires n <= |s| && x in s[..n]
    ensures x in s && IndexOf(s, x) == IndexOf(s[..n], x)
  {
    if s[0] != x {
      assert s[..n][1..] == s[1..][..n - 1];
      SameIndex(s[1..], x, n - 1);
    }
  }

  /** Removing an element from behind a prefix leaves the prefix alone. */
  lemma WithoutBehind<T>(s: seq<T>, x: T, n: nat)
    requires n <= |s| && x !in s[..n]
    ensures n <= |Without(s, x)| && Without(s, x)[..n] == s[..n]
  {
    assert forall j | 0 <= j < n :: s[..n][j] == s[j];
  }

  lemma OneOf<T>(s: seq<T>)
    ensures s == [] || exists x :: x in s
  {
    assert s == [] || s[0] in s;
  }

  ghost predicate Increasing(xs: seq<nat>) {
    forall i, j | 0 <= i < j < |xs| :: xs[i] < xs[j]
  }

  ghost function Elems<T>(s: seq<T>): set<T> {
    set x | x in s
  }

  lemma PushIncreasing(xs: seq<nat>, y: nat)
    requires Increasing(xs) && forall x | x in xs :: x < y
    ensures Increasing(xs + [y])
  {
    assert forall i | 0 <= i < |xs| :: xs[i] in xs;
  }
}
