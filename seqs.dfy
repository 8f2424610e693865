/**
 * The ordered-list combinators the budget code is written with: `Array.prototype.map`,
 * `filter`, `reduce` (over numbers) and `reverse`, together with `Sum`, the reference
 * definition of a total that the left-to-right `reduce` is proved against.
 */
module Seqs {

  /** `s.map(f)`: same length, element by element. */
  function Map<T, U>(s: seq<T>, f: T -> U): (r: seq<U>)
    ensures |r| == |s|
    ensures forall i :: 0 <= i < |s| ==> r[i] == f(s[i])
  {
    if s == [] then [] else [f(s[0])] + Map(s[1..], f)
  }

  /** `s.filter(keep)`: the elements that pass, in their original order. */
  function Filter<T(==)>(s: seq<T>, keep: T -> bool): (r: seq<T>)
    ensures |r| <= |s|
    ensures forall i :: 0 <= i < |r| ==> keep(r[i])
    ensures (forall i :: 0 <= i < |s| ==> keep(s[i])) ==> r == s
  {
    if s == [] then []
    else (if keep(s[0]) then [s[0]] else []) + Filter(s[1..], keep)
  }

  /** An element survives the filter exactly when it was in the list and passes the test. */
  lemma {:induction false} FilterMembership<T>(s: seq<T>, keep: T -> bool, x: T)
    ensures x in Filter(s, keep) <==> x in s && keep(x)
  {
    if s != [] {
      FilterMembership(s[1..], keep, x);
      assert s == [s[0]] + s[1..];
    }
  }

  /** Filtering distributes over concatenation: the order of the survivors is the original order. */
  lemma {:induction false} FilterAppend<T>(a: seq<T>, b: seq<T>, keep: T -> bool)
    ensures Filter(a + b, keep) == Filter(a, keep) + Filter(b, keep)
  {
    if a == [] {
      assert a + b == b;
    } else {
      assert (a + b)[0] == a[0];
      assert (a + b)[1..] == a[1..] + b;
      FilterAppend(a[1..], b, keep);
    }
  }

  /** Filtering twice with the same test is filtering once. */
  lemma FilterIdempotent<T>(s: seq<T>, keep: T -> bool)
    ensures Filter(Filter(s, keep), keep) == Filter(s, keep)
  {
  }

  /** When exactly one element fails the test, filtering removes just that element. */
  lemma {:induction false} FilterRemovesOne<T>(s: seq<T>, k: int, keep: T -> bool)
    requires 0 <= k < |s| && !keep(s[k])
    requires forall i :: 0 <= i < |s| && i != k ==> keep(s[i])
    ensures Filter(s, keep) == s[..k] + s[k + 1..]
  {
    if k == 0 {
      assert forall i :: 0 <= i < |s[1..]| ==> keep(s[1..][i]);
    } else {
      assert forall i :: 0 <= i < |s[1..]| && i != k - 1 ==> keep(s[1..][i]);
      FilterRemovesOne(s[1..], k - 1, keep);
      assert s[..k] == [s[0]] + s[1..][..k - 1];
      assert s[k + 1..] == s[1..][k..];
    }
  }

  /** Reference definition of a total: the sum of `f` over `s`, built from the last element. */
  function Sum<T>(s: seq<T>, f: T -> real): real
  {
    if s == [] then 0.0 else Sum(s[..|s| - 1], f) + f(s[|s| - 1])
  }

  /** A total over a concatenation is the sum of the two totals. */
  lemma {:induction false} SumAppend<T>(a: seq<T>, b: seq<T>, f: T -> real)
    ensures Sum(a + b, f) == Sum(a, f) + Sum(b, f)
  {
    if b == [] {
      assert a + b == a;
    } else {
      assert (a + b)[..|a + b| - 1] == a + b[..|b| - 1];
      assert (a + b)[|a + b| - 1] == b[|b| - 1];
      SumAppend(a, b[..|b| - 1], f);
    }
  }

  /** A total of non-negative terms is non-negative. */
  lemma {:induction false} SumNonNegative<T>(s: seq<T>, f: T -> real)
    requires forall i :: 0 <= i < |s| ==> f(s[i]) >= 0.0
    ensures Sum(s, f) >= 0.0
  {
    if s != [] {
      assert forall i :: 0 <= i < |s| - 1 ==> s[..|s| - 1][i] == s[i];
      SumNonNegative(s[..|s| - 1], f);
    }
  }

  /** Two lists whose terms agree position by position have the same total. */
  lemma {:induction false} SumPointwise<T, U>(s: seq<T>, f: T -> real, t: seq<U>, g: U -> real)
    requires |s| == |t|
    requires forall i :: 0 <= i < |s| ==> f(s[i]) == g(t[i])
    ensures Sum(s, f) == Sum(t, g)
  {
    if s != [] {
      var n := |s| - 1;
      assert forall i :: 0 <= i < n ==> s[..n][i] == s[i] && t[..n][i] == t[i];
      SumPointwise(s[..n], f, t[..n], g);
    }
  }

  /** Changing the term at one position changes the total by the difference. */
  lemma SumUpdateOne<T>(s: seq<T>, t: seq<T>, k: int, f: T -> real)
    requires |s| == |t| && 0 <= k < |s|
    requires forall i :: 0 <= i < |s| && i != k ==> f(s[i]) == f(t[i])
    ensures Sum(t, f) == Sum(s, f) + (f(t[k]) - f(s[k]))
  {
    assert s == s[..k] + [s[k]] + s[k + 1..];
    assert t == t[..k] + [t[k]] + t[k + 1..];
    SumAppend(s[..k] + [s[k]], s[k + 1..], f);
    SumAppend(s[..k], [s[k]], f);
    SumAppend(t[..k] + [t[k]], t[k + 1..], f);
    SumAppend(t[..k], [t[k]], f);
    SumPointwise(s[..k], f, t[..k], f);
    SumPointwise(s[k + 1..], f, t[k + 1..], f);
    assert Sum([s[k]], f) == f(s[k]) by { assert [s[k]][..0] == []; }
    assert Sum([t[k]], f) == f(t[k]) by { assert [t[k]][..0] == []; }
  }

  /** `s.reduce((acc, x) => acc + f(x), acc)`: the left-to-right fold, equal to `acc` plus the reference total. */
  function FoldLeft<T>(acc: real, s: seq<T>, f: T -> real): (r: real)
    ensures r == acc + Sum(s, f)
    decreases s
  {
    if s == [] then acc
    else
      SumAppend([s[0]], s[1..], f);
      assert [s[0]] + s[1..] == s;
      assert [s[0]][..0] == [];
      FoldLeft(acc + f(s[0]), s[1..], f)
  }

  /** `[...s].reverse()`: the last element comes first. */
  function Reverse<T>(s: seq<T>): (r: seq<T>)
    ensures |r| == |s|
    ensures forall i :: 0 <= i < |s| ==> r[i] == s[|s| - 1 - i]
  {
    if s == [] then [] else Reverse(s[1..]) + [s[0]]
  }
}
