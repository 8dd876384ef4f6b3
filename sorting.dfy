/** `Array.prototype.sort` with a descending-key comparator, as the store and the
    creator filter use it: a stable sort, here an insertion sort. */
module Sorting {

  /** Non-increasing by `key`. */
  ghost predicate SortedDesc<T>(s: seq<T>, key: T -> real) {
    forall i, j :: 0 <= i < j < |s| ==> key(s[j]) <= key(s[i])
  }

  /** Places `x` after every element whose key is at least `x`'s. */
  function Insert<T>(x: T, s: seq<T>, key: T -> real): seq<T> {
    if s == [] then [x]
    else if key(s[0]) < key(x) then [x] + s
    else [s[0]] + Insert(x, s[1..], key)
  }

  /** The elements of `s`, non-increasing by `key`, equal keys in their input order. */
  function SortDesc<T>(s: seq<T>, key: T -> real): seq<T> {
    if s == [] then [] else Insert(s[|s| - 1], SortDesc(s[..|s| - 1], key), key)
  }

  lemma {:induction false} InsertPermutes<T>(x: T, s: seq<T>, key: T -> real)
    ensures multiset(Insert(x, s, key)) == multiset(s) + multiset{x}
    ensures |Insert(x, s, key)| == |s| + 1
  {
    if s != [] && key(x) <= key(s[0]) {
      InsertPermutes(x, s[1..], key);
      assert s == [s[0]] + s[1..];
    }
  }

  lemma {:induction false} InsertKeepsSorted<T>(x: T, s: seq<T>, key: T -> real)
    requires SortedDesc(s, key)
    ensures SortedDesc(Insert(x, s, key), key)
  {
    if s != [] && key(x) <= key(s[0]) {
      InsertKeepsSorted(x, s[1..], key);
      InsertPermutes(x, s[1..], key);
      var r := Insert(x, s[1..], key);
      forall k | 0 <= k < |r| ensures key(r[k]) <= key(s[0]) {
        assert r[k] in multiset(r);
        assert r[k] == x || r[k] in multiset(s[1..]);
        if r[k] != x {
          var m :| 0 <= m < |s[1..]| && s[1..][m] == r[k];
          assert s[m + 1] == r[k];
        }
      }
    }
  }

  /** The sort returns a non-increasing permutation of its input. */
  lemma {:induction false} SortDescSortsAndPermutes<T>(s: seq<T>, key: T -> real)
    ensures SortedDesc(SortDesc(s, key), key)
    ensures multiset(SortDesc(s, key)) == multiset(s)
    ensures |SortDesc(s, key)| == |s|
  {
    if s != [] {
      var init := s[..|s| - 1];
      SortDescSortsAndPermutes(init, key);
      InsertKeepsSorted(s[|s| - 1], SortDesc(init, key), key);
      InsertPermutes(s[|s| - 1], SortDesc(init, key), key);
      assert s == init + [s[|s| - 1]];
    }
  }

  /** Taking the first `k` of the sorted sequence keeps the `k` largest keys: whatever is
      left out has a key no larger than anything kept. */
  lemma SortedPrefixIsTop<T>(xs: seq<T>, key: T -> real, k: nat)
    requires k <= |xs|
    ensures |SortDesc(xs, key)| == |xs|
    ensures SortedDesc(SortDesc(xs, key)[..k], key)
    ensures multiset(SortDesc(xs, key)[..k]) <= multiset(xs)
    ensures forall x, y :: x in xs && x !in SortDesc(xs, key)[..k] && y in SortDesc(xs, key)[..k] ==> key(x) <= key(y)
  {
    SortDescSortsAndPermutes(xs, key);
    var s := SortDesc(xs, key);
    SortedSplit(s, key, k);
    PrefixSplit(s, k);
    forall x | x in xs ensures x in s {
      assert x in multiset(xs);
    }
  }

  /** A prefix of a sorted sequence is sorted and no key after it is larger than a key
      in it. */
  lemma SortedSplit<T>(s: seq<T>, key: T -> real, k: nat)
    requires SortedDesc(s, key) && k <= |s|
    ensures SortedDesc(s[..k], key)
    ensures forall x, y :: x in s[k..] && y in s[..k] ==> key(x) <= key(y)
  {
    var r, t := s[..k], s[k..];
    forall x, y | x in t && y in r ensures key(x) <= key(y) {
      var j :| 0 <= j < |t| && t[j] == x;
      var i :| 0 <= i < |r| && r[i] == y;
      assert s[k + j] == x && s[i] == y;
    }
  }

  /** What is not in a prefix is in the rest. */
  lemma PrefixSplit<T>(s: seq<T>, k: nat)
    requires k <= |s|
    ensures multiset(s[..k]) <= multiset(s)
    ensures forall x :: x in s && x !in s[..k] ==> x in s[k..]
  {
    assert s == s[..k] + s[k..];
    assert multiset(s) == multiset(s[..k]) + multiset(s[k..]);
  }

  /** Insertion into a sorted sequence lands right after the last element whose key is
      at least `x`'s. */
  lemma {:induction false} InsertAt<T>(x: T, p: seq<T>, j: nat, key: T -> real)
    requires j <= |p|
    requires forall k :: j <= k < |p| ==> key(p[k]) < key(x)
    requires forall k :: 0 <= k < j ==> key(x) <= key(p[k])
    ensures Insert(x, p, key) == p[..j] + [x] + p[j..]
  {
    if j > 0 {
      InsertAt(x, p[1..], j - 1, key);
      assert p[1..][..j - 1] == p[1..j];
      assert p[..j] == [p[0]] + p[1..j];
      assert p[1..][j - 1..] == p[j..];
    } else if p != [] {
      assert p[..0] == [];
    }
  }

  /** Moves `a[i]` left past the elements of the sorted prefix `a[..i]` whose key is
      smaller, shifting them one place right. */
  method InsertIntoPrefix<T>(a: array<T>, i: nat, key: T -> real)
    requires i < a.Length
    requires SortedDesc(a[..i], key)
    modifies a
    ensures a[..i + 1] == Insert(old(a[i]), old(a[..i]), key)
    ensures a[i + 1..] == old(a[i + 1..])
  {
    ghost var p := a[..i];
    ghost var rest := a[i + 1..];
    var x := a[i];
    var j := i;
    while j > 0 && key(a[j - 1]) < key(x)
      invariant 0 <= j <= i
      invariant forall k :: 0 <= k < j ==> a[k] == p[k]
      invariant forall k :: j < k <= i ==> a[k] == p[k - 1]
      invariant a[i + 1..] == rest
      invariant forall k :: j <= k < i ==> key(p[k]) < key(x)
    {
      a[j] := a[j - 1];
      j := j - 1;
    }
    a[j] := x;
    ShiftedIsInsert(p, x, j, a[..i + 1], key);
  }

  /** The prefix after the shifting loop: `p` with `x` placed at `j`. */
  lemma ShiftedIsInsert<T>(p: seq<T>, x: T, j: nat, b: seq<T>, key: T -> real)
    requires SortedDesc(p, key) && j <= |p| && |b| == |p| + 1
    requires forall k :: 0 <= k < j ==> b[k] == p[k]
    requires b[j] == x
    requires forall k :: j < k < |b| ==> b[k] == p[k - 1]
    requires forall k :: j <= k < |p| ==> key(p[k]) < key(x)
    requires j > 0 ==> key(x) <= key(p[j - 1])
    ensures b == Insert(x, p, key)
  {
    forall k | 0 <= k < j ensures key(x) <= key(p[k]) {
      assert key(p[j - 1]) <= key(p[k]);
    }
    InsertAt(x, p, j, key);
    var ins := p[..j] + [x] + p[j..];
    forall k | 0 <= k < |b| ensures b[k] == ins[k] {
      if k < j {
        assert ins[k] == p[k];
      } else if k > j {
        assert ins[k] == p[k - 1];
      }
    }
  }

  /** Sorts `a` in place by non-increasing key; the result is exactly `SortDesc`. */
  method SortInPlace<T>(a: array<T>, key: T -> real)
    modifies a
    ensures a[..] == SortDesc(old(a[..]), key)
  {
    ghost var orig := a[..];
    var i := 0;
    while i < a.Length
      invariant 0 <= i <= a.Length
      invariant a[..i] == SortDesc(orig[..i], key)
      invariant a[i..] == orig[i..]
    {
      SortDescSortsAndPermutes(orig[..i], key);
      ghost var sorted := a[..i];
      var x := a[i];
      assert x == orig[i] by {
        assert a[i..][0] == orig[i..][0];
      }
      assert a[i + 1..] == orig[i + 1..] by {
        assert a[i..][1..] == orig[i..][1..];
      }
      InsertIntoPrefix(a, i, key);
      assert orig[..i + 1][..i] == orig[..i];
      assert orig[..i + 1][i] == orig[i];
      assert SortDesc(orig[..i + 1], key) == Insert(x, sorted, key);
      i := i + 1;
    }
    assert orig[..a.Length] == orig;
  }
}
