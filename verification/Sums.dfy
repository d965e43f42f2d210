// Sums over table rows, and how they react to the ways a table changes.
module Sums {
  import opened BigNumbers

  function SumBy<T>(xs: seq<T>, f: T -> Amount): Amount {
    if xs == [] then 0.0 else SumBy(xs[..|xs| - 1], f) + f(xs[|xs| - 1])
  }

  lemma {:induction false} SumAppend<T>(xs: seq<T>, x: T, f: T -> Amount)
    ensures SumBy(xs + [x], f) == SumBy(xs, f) + f(x)
  {
    assert (xs + [x])[..|xs|] == xs;
  }

  lemma {:induction false} SumUpdate<T>(xs: seq<T>, i: nat, x: T, f: T -> Amount)
    requires i < |xs|
    ensures SumBy(xs[i := x], f) == SumBy(xs, f) - f(xs[i]) + f(x)
  {
    var n := |xs| - 1;
    if i == n {
      assert xs[i := x][..n] == xs[..n];
    } else {
      assert xs[i := x][..n] == xs[..n][i := x];
      SumUpdate(xs[..n], i, x, f);
    }
  }

  lemma {:induction false} SumConcat<T>(xs: seq<T>, ys: seq<T>, f: T -> Amount)
    ensures SumBy(xs + ys, f) == SumBy(xs, f) + SumBy(ys, f)
  {
    if ys == [] {
      assert xs + ys == xs;
    } else {
      var n := |ys| - 1;
      assert (xs + ys)[..|xs| + n] == xs + ys[..n];
      SumConcat(xs, ys[..n], f);
    }
  }

  /** Term by term, a smaller function has a smaller sum. */
  lemma {:induction false} SumMonotone<T>(xs: seq<T>, f: T -> Amount, g: T -> Amount)
    requires forall i :: 0 <= i < |xs| ==> f(xs[i]) <= g(xs[i])
    ensures SumBy(xs, f) <= SumBy(xs, g)
  {
    if xs != [] {
      SumMonotone(xs[..|xs| - 1], f, g);
    }
  }

  lemma {:induction false} SumEqual<T>(xs: seq<T>, f: T -> Amount, g: T -> Amount)
    requires forall i :: 0 <= i < |xs| ==> f(xs[i]) == g(xs[i])
    ensures SumBy(xs, f) == SumBy(xs, g)
  {
    SumMonotone(xs, f, g);
    SumMonotone(xs, g, f);
  }

  lemma {:induction false} SumZero<T>(xs: seq<T>, f: T -> Amount)
    requires forall i :: 0 <= i < |xs| ==> f(xs[i]) == 0.0
    ensures SumBy(xs, f) == 0.0
  {
    if xs != [] {
      SumZero(xs[..|xs| - 1], f);
    }
  }

  lemma {:induction false} SumNonNegative<T>(xs: seq<T>, f: T -> Amount)
    requires forall i :: 0 <= i < |xs| ==> f(xs[i]) >= 0.0
    ensures SumBy(xs, f) >= 0.0
  {
    if xs != [] {
      SumNonNegative(xs[..|xs| - 1], f);
    }
  }

  /** One term of a sum without negative terms is at most the sum. */
  lemma {:induction false} SumMember<T>(xs: seq<T>, i: nat, f: T -> Amount)
    requires i < |xs| && forall j :: 0 <= j < |xs| ==> f(xs[j]) >= 0.0
    ensures f(xs[i]) <= SumBy(xs, f)
  {
    var n := |xs| - 1;
    if i == n {
      SumNonNegative(xs[..n], f);
    } else {
      SumMember(xs[..n], i, f);
    }
  }

  lemma {:induction false} SumPrefix<T>(xs: seq<T>, n: nat, f: T -> Amount)
    requires n <= |xs| && forall j :: 0 <= j < |xs| ==> f(xs[j]) >= 0.0
    ensures SumBy(xs[..n], f) <= SumBy(xs, f)
  {
    assert xs == xs[..n] + xs[n..];
    SumConcat(xs[..n], xs[n..], f);
    SumNonNegative(xs[n..], f);
  }

  lemma {:induction false} SumAdd<T>(xs: seq<T>, f: T -> Amount, g: T -> Amount, h: T -> Amount)
    requires forall i :: 0 <= i < |xs| ==> h(xs[i]) == f(xs[i]) + g(xs[i])
    ensures SumBy(xs, h) == SumBy(xs, f) + SumBy(xs, g)
  {
    if xs != [] {
      SumAdd(xs[..|xs| - 1], f, g, h);
    }
  }

  /** The order of the rows does not matter. */
  lemma {:induction false} SumPermuted<T>(xs: seq<T>, ys: seq<T>, f: T -> Amount)
    requires multiset(xs) == multiset(ys)
    ensures SumBy(xs, f) == SumBy(ys, f)
    decreases |xs|
  {
    if xs == [] {
      assert |ys| == |multiset(ys)| == 0;
    } else {
      var n := |xs| - 1;
      var x := xs[n];
      assert xs == xs[..n] + [x];
      assert x in multiset(ys);
      var k :| 0 <= k < |ys| && ys[k] == x;
      var rest := ys[..k] + ys[k + 1..];
      assert ys == ys[..k] + [x] + ys[k + 1..];
      SumConcat(ys[..k] + [x], ys[k + 1..], f);
      SumAppend(ys[..k], x, f);
      SumConcat(ys[..k], ys[k + 1..], f);
      var mx, mr := multiset(xs[..n]), multiset(rest);
      assert multiset(xs) == mx + multiset{x};
      assert multiset(ys) == multiset(ys[..k]) + multiset{x} + multiset(ys[k + 1..]) == mr + multiset{x};
      assert mx == (mx + multiset{x}) - multiset{x} && mr == (mr + multiset{x}) - multiset{x};
      SumPermuted(xs[..n], rest, f);
    }
  }

  // --- Rows that satisfy a condition ----------------------------------------------------------

  function Keep<E>(p: E -> bool, xs: seq<E>): seq<E> {
    if xs == [] then [] else Keep(p, xs[..|xs| - 1]) + if p(xs[|xs| - 1]) then [xs[|xs| - 1]] else []
  }

  lemma {:induction false} SumOfKept<E>(p: E -> bool, xs: seq<E>, f: E -> Amount)
    requires forall x :: x in xs && !p(x) ==> f(x) == 0.0
    ensures SumBy(Keep(p, xs), f) == SumBy(xs, f)
  {
    if xs != [] {
      var n := |xs| - 1;
      assert forall x :: x in xs[..n] ==> x in xs;
      SumOfKept(p, xs[..n], f);
      assert xs[n] in xs;
      if p(xs[n]) {
        SumAppend(Keep(p, xs[..n]), xs[n], f);
      } else {
        assert Keep(p, xs) == Keep(p, xs[..n]);
      }
    }
  }

  lemma {:induction false} KeptAreMembers<E>(p: E -> bool, xs: seq<E>)
    ensures forall x :: x in Keep(p, xs) <==> x in xs && p(x)
  {
    if xs != [] {
      KeptAreMembers(p, xs[..|xs| - 1]);
      assert xs == xs[..|xs| - 1] + [xs[|xs| - 1]];
    }
  }
}
