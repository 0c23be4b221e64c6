/** Sizes of finite sets and of sequences without repetition, and folds over sequences. */
module Sets {

  lemma {:induction false} SubsetSize<T>(a: set<T>, b: set<T>)
    requires a <= b
    ensures |a| <= |b|
    ensures |a| == |b| ==> a == b
  {
    assert b == a + (b - a);
    if |a| == |b| {
      assert |b - a| == 0;
    }
  }

  lemma {:induction false} BelowSize(a: set<nat>, n: nat)
    requires forall x :: x in a ==> x < n
    ensures |a| <= n
  {
    if n == 0 {
      assert a == {};
    } else {
      BelowSize(a - {n - 1}, n - 1);
    }
  }

  lemma {:induction false} DistinctSize<T>(q: seq<T>)
    requires forall i, j :: 0 <= i < j < |q| ==> q[i] != q[j]
    ensures |set x | x in q| == |q|
  {
    if q == [] {
      assert (set x | x in q) == {};
    } else {
      var rest := q[..|q| - 1];
      DistinctSize(rest);
      assert (set x | x in q) == (set x | x in rest) + {q[|q| - 1]};
    }
  }

  /** n distinct numbers below n are all of them. */
  lemma {:induction false} Pigeonhole(q: seq<nat>, m: nat)
    requires forall i :: 0 <= i < |q| ==> q[i] < |q|
    requires forall i, j :: 0 <= i < j < |q| ==> q[i] != q[j]
    requires m < |q|
    ensures m in q
  {
    DistinctSize(q);
    BelowSize((set x | x in q) + {m}, |q|);
  }

  // ---- folds over sequences ----

  function Fold<S, E>(f: (S, E) -> S, s: S, es: seq<E>): S
  {
    if es == [] then s else f(Fold(f, s, es[..|es| - 1]), es[|es| - 1])
  }

  lemma {:induction false} FoldSnoc<S, E>(f: (S, E) -> S, s: S, es: seq<E>, e: E)
    ensures Fold(f, s, es + [e]) == f(Fold(f, s, es), e)
  {
    assert (es + [e])[..|es|] == es;
  }

  lemma {:induction false} FoldTwo<S, E>(f: (S, E) -> S, s: S, es: seq<E>, x: E, y: E)
    ensures Fold(f, s, es + [x, y]) == f(f(Fold(f, s, es), x), y)
  {
    FoldSnoc(f, s, es, x);
    FoldSnoc(f, s, es + [x], y);
    assert es + [x, y] == es + [x] + [y];
  }
}
