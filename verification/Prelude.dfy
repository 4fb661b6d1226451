/** Failure-free optional values shared by every module of the model. */
module Prelude {

  datatype Option<+T> = None | Some(value: T) {
    /** The first defined value of the two, as JavaScript's `??` picks it. */
    function Or(other: Option<T>): Option<T> {
      if Some? then this else other
    }
  }

  function Max(a: int, b: int): (r: int)
    ensures r >= a && r >= b && (r == a || r == b)
  {
    if a < b then b else a
  }

  function Min(a: int, b: int): (r: int)
    ensures r <= a && r <= b && (r == a || r == b)
  {
    if a < b then a else b
  }

  function Flatten<T>(parts: seq<seq<T>>): seq<T> {
    if parts == [] then [] else parts[0] + Flatten(parts[1..])
  }

  lemma {:induction false} FlattenAppend<T>(a: seq<seq<T>>, b: seq<seq<T>>)
    ensures Flatten(a + b) == Flatten(a) + Flatten(b)
  {
    if a == [] {
      assert a + b == b;
    } else {
      assert (a + b)[1..] == a[1..] + b;
      FlattenAppend(a[1..], b);
    }
  }

  function Without<T>(xs: seq<T>, k: nat): (r: seq<T>)
    requires k < |xs|
    ensures |r| == |xs| - 1
  {
    xs[..k] + xs[k + 1..]
  }

  lemma WithoutTakesOne<T>(xs: seq<T>, k: nat)
    requires k < |xs|
    ensures multiset(xs) == multiset(Without(xs, k)) + multiset{xs[k]}
  {
    assert xs == xs[..k] + [xs[k]] + xs[k + 1..];
  }

  /** Of two permutations, the last element of one is somewhere in the other, and the rest are permutations again. */
  lemma MatchLast<T>(a: seq<T>, b: seq<T>) returns (k: nat)
    requires multiset(a) == multiset(b) && a != []
    ensures k < |b| && b[k] == a[|a| - 1] && multiset(a[..|a| - 1]) == multiset(Without(b, k))
  {
    var n := |a| - 1;
    WithoutTakesOne(a, n);
    assert Without(a, n) == a[..n];
    assert a[n] in multiset(b);
    k :| 0 <= k < |b| && b[k] == a[n];
    WithoutTakesOne(b, k);
    assert multiset(a[..n]) == multiset(a) - multiset{a[n]};
    assert multiset(Without(b, k)) == multiset(b) - multiset{a[n]};
  }

  lemma WithoutLast<T>(xs: seq<T>, k: nat)
    requires k < |xs| - 1
    ensures Without(xs, k)[..|xs| - 2] == Without(xs[..|xs| - 1], k) && Without(xs, k)[|xs| - 2] == xs[|xs| - 1]
  {
  }

  lemma SliceOfTail<T>(xs: seq<T>, m: nat, n: nat)
    requires m <= n < |xs|
    ensures xs[m + 1..n + 1] == xs[1..][m..n]
  {
    forall i | 0 <= i < n - m ensures xs[m + 1..n + 1][i] == xs[1..][m..n][i] {
      assert xs[1..][m + i] == xs[m + 1 + i];
    }
  }
}
