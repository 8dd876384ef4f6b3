/** The array pipeline steps the source builds its queries from: `filter`, `filter(..).length`
    and `slice(0, n)`, and listing an id-keyed `Map` in insertion order. */
module Seqs {

  /** `s.filter(p)` */
  function Filter<T>(s: seq<T>, p: T -> bool): (r: seq<T>)
    ensures |r| <= |s|
    ensures forall i :: 0 <= i < |r| ==> r[i] in s && p(r[i])
    ensures forall i :: 0 <= i < |s| && p(s[i]) ==> s[i] in r
  {
    if s == [] then [] else (if p(s[0]) then [s[0]] else []) + Filter(s[1..], p)
  }

  /** `s.filter(p).length` */
  function Count<T>(s: seq<T>, p: T -> bool): nat {
    if s == [] then 0 else (if p(s[0]) then 1 else 0) + Count(s[1..], p)
  }

  lemma {:induction false} CountIsFilterLength<T>(s: seq<T>, p: T -> bool)
    ensures Count(s, p) == |Filter(s, p)|
  {
    if s != [] {
      CountIsFilterLength(s[1..], p);
    }
  }

  lemma {:induction false} CountAppend<T>(a: seq<T>, b: seq<T>, p: T -> bool)
    ensures Count(a + b, p) == Count(a, p) + Count(b, p)
  {
    if a == [] {
      assert a + b == b;
    } else {
      CountAppend(a[1..], b, p);
      assert (a + b)[1..] == a[1..] + b;
    }
  }

  lemma {:induction false} FilterAppend<T>(a: seq<T>, b: seq<T>, p: T -> bool)
    ensures Filter(a + b, p) == Filter(a, p) + Filter(b, p)
  {
    if a == [] {
      assert a + b == b;
    } else {
      var h := if p(a[0]) then [a[0]] else [];
      assert (a + b)[0] == a[0];
      assert (a + b)[1..] == a[1..] + b;
      calc {
        Filter(a + b, p);
        h + Filter(a[1..] + b, p);
        { FilterAppend(a[1..], b, p); }
        h + (Filter(a[1..], p) + Filter(b, p));
        (h + Filter(a[1..], p)) + Filter(b, p);
      }
    }
  }

  /** Elements matching `p` or `q` are never fewer than those matching both, nor more than
      the matches of each added up; with disjoint predicates the counts add. */
  lemma {:induction false} CountDisjoint<T>(s: seq<T>, p: T -> bool, q: T -> bool)
    requires forall i :: 0 <= i < |s| ==> !(p(s[i]) && q(s[i]))
    ensures Count(s, p) + Count(s, q) == Count(s, x => p(x) || q(x))
    ensures Count(s, p) + Count(s, q) <= |s|
  {
    if s != [] {
      CountDisjoint(s[1..], p, q);
    }
  }

  /** Counting a weaker predicate never gives less. */
  lemma {:induction false} CountMonotone<T>(s: seq<T>, p: T -> bool, q: T -> bool)
    requires forall i :: 0 <= i < |s| && p(s[i]) ==> q(s[i])
    ensures Count(s, p) <= Count(s, q)
  {
    if s != [] {
      CountMonotone(s[1..], p, q);
    }
  }

  function Min(a: int, b: int): int { if a <= b then a else b }
  function Max(a: int, b: int): int { if a <= b then b else a }

  /** `s.slice(0, n)`: a negative `n` counts back from the end. */
  function JsSlice<T>(s: seq<T>, n: int): (r: seq<T>)
    ensures |r| == if n >= 0 then Min(n, |s|) else Max(0, |s| + n)
    ensures r == s[..|r|]
  {
    if n >= 0 then s[..Min(n, |s|)] else s[..Max(0, |s| + n)]
  }

  /** The values of an id-keyed map for ids 1..n, in id order: the insertion order of a
      `Map` whose keys come from a counter and are never deleted. */
  function Listed<T>(m: map<nat, T>, n: nat): (s: seq<T>)
    ensures |s| <= n
  {
    if n == 0 then [] else Listed(m, n - 1) + (if n in m then [m[n]] else [])
  }

  /** With every id 1..n present, the listing holds exactly those entries, in id order. */
  lemma {:induction false} ListedComplete<T>(m: map<nat, T>, n: nat)
    requires forall id :: 1 <= id <= n ==> id in m
    ensures |Listed(m, n)| == n
    ensures forall i :: 0 <= i < n ==> Listed(m, n)[i] == m[i + 1]
  {
    if n > 0 {
      ListedComplete(m, n - 1);
    }
  }

  /** Entries with ids above n are not listed. */
  lemma {:induction false} ListedIgnoresAbove<T>(m: map<nat, T>, k: nat, x: T, n: nat)
    requires n < k
    ensures Listed(m[k := x], n) == Listed(m, n)
  {
    if n > 0 {
      ListedIgnoresAbove(m, k, x, n - 1);
    }
  }

  /** Overwriting a listed entry overwrites it in place. */
  lemma {:induction false} ListedUpdate<T>(m: map<nat, T>, k: nat, x: T, n: nat)
    requires forall id :: 1 <= id <= n ==> id in m
    requires 1 <= k <= n
    ensures |Listed(m, n)| == n
    ensures Listed(m[k := x], n) == Listed(m, n)[k - 1 := x]
  {
    ListedComplete(m, n);
    ListedComplete(m[k := x], n);
  }
}
