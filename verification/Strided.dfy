/** Strided loops: worker w of `stride` workers visits w, w + stride, w + 2 * stride, ... The workers together
    visit every index below n once. */
module Strided {
  import Arith

  /** Index i is visited by the workers below w, or by worker w before index `next`. */
  predicate Reached(i: nat, stride: nat, w: nat, next: nat)
    requires stride > 0
  {
    i % stride < w || (i % stride == w && i < next)
  }

  /** `done` is the set of indices below n visited when worker w is about to visit `next`. */
  ghost predicate Schedule(done: set<nat>, n: nat, stride: nat, w: nat, next: nat)
    requires stride > 0
  {
    forall i: nat :: i in done <==> i < n && Reached(i, stride, w, next)
  }

  lemma {:induction false} ReachedNext(i: nat, stride: nat, w: nat, at: nat)
    requires stride > 0 && at % stride == w
    ensures Reached(i, stride, w, at + stride) <==> Reached(i, stride, w, at) || i == at
    ensures (at + stride) % stride == w && !Reached(at, stride, w, at)
  {
    Arith.DivModUnique(at + stride, stride, at / stride + 1, w);
    if i % stride == w && at < i < at + stride {
      assert i == i / stride * stride + w && at == at / stride * stride + w;
      Arith.Distribute(i / stride, -(at / stride), stride);
      Arith.SmallMultiple(i / stride - at / stride, stride);
    }
  }

  lemma {:induction false} ReachedFirst(i: nat, stride: nat, w: nat)
    requires w < stride
    ensures Reached(i, stride, w, w) <==> Reached(i, stride, w, 0)
    ensures w % stride == w
  {
    Arith.DivModUnique(w, stride, 0, w);
    if i < w {
      Arith.DivModUnique(i, stride, 0, i);
    }
  }

  /** A worker starts at its own number. */
  lemma {:induction false} ScheduleStart(done: set<nat>, n: nat, stride: nat, w: nat)
    requires w < stride && Schedule(done, n, stride, w, 0)
    ensures w % stride == w && Schedule(done, n, stride, w, w)
  {
    forall i: nat
      ensures Reached(i, stride, w, w) == Reached(i, stride, w, 0)
    {
      ReachedFirst(i, stride, w);
    }
    ReachedFirst(0, stride, w);
  }

  /** A visit finds an index that was not visited before. */
  lemma {:induction false} ScheduleNext(done: set<nat>, n: nat, stride: nat, w: nat, at: nat)
    requires stride > 0 && at % stride == w && at < n && Schedule(done, n, stride, w, at)
    ensures at !in done && (at + stride) % stride == w && Schedule(done + {at}, n, stride, w, at + stride)
  {
    forall i: nat
      ensures Reached(i, stride, w, at + stride) == (Reached(i, stride, w, at) || i == at)
    {
      ReachedNext(i, stride, w, at);
    }
    ReachedNext(at, stride, w, at);
  }

  /** A worker that has passed n is followed by the next worker. */
  lemma {:induction false} ScheduleEnd(done: set<nat>, n: nat, stride: nat, w: nat, at: nat)
    requires stride > 0 && n <= at && Schedule(done, n, stride, w, at)
    ensures Schedule(done, n, stride, w + 1, 0)
  {
    forall i: nat | i < n
      ensures Reached(i, stride, w + 1, 0) == Reached(i, stride, w, at)
    {
    }
  }

  /** After the last worker every index is done. */
  lemma {:induction false} ScheduleAll(done: set<nat>, n: nat, stride: nat)
    requires stride > 0 && Schedule(done, n, stride, stride, 0)
    ensures forall i: nat :: i in done <==> i < n
  {
    assert forall i: nat :: Reached(i, stride, stride, 0);
  }
}
