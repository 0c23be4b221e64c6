/** What a warp of 32 lanes computes together: an unrolled copy and an all-lane sum. */
module Warp {
  import Arith

  const LANES: nat := 32

  // ---- the unrolled copy ----

  /** The part of [0, n) that whole unrolled rounds cover. */
  function MainPart(n: nat, unroll: nat): nat
    requires unroll > 0
  {
    (n / (LANES * unroll)) * (LANES * unroll)
  }

  /** b is a whole number of rounds of s elements. */
  predicate Rounds(b: nat, s: nat)
    requires s > 0
  {
    b == 0 || (b >= s && Rounds(b - s, s))
  }

  lemma {:induction false} RoundsOf(q: nat, s: nat)
    requires s > 0
    ensures q * s >= 0 && Rounds(q * s, s)
  {
    Arith.MulMono(0, q, s);
    if q > 0 {
      RoundsOf(q - 1, s);
      Arith.Distribute(q - 1, 1, s);
      Arith.MulMono(0, q - 1, s);
    }
  }

  /** A round that starts below the main part ends inside it. */
  lemma {:induction false} NextRound(b: nat, main: nat, s: nat)
    requires s > 0 && Rounds(b, s) && Rounds(main, s) && b < main
    ensures b + s <= main && Rounds(b + s, s)
  {
    if b > 0 {
      NextRound(b - s, main - s, s);
    }
  }

  lemma {:induction false} MainPartBounds(n: nat, unroll: nat)
    requires unroll > 0
    ensures MainPart(n, unroll) <= n
    ensures Rounds(MainPart(n, unroll), LANES * unroll) && MainPart(n, unroll) % LANES == 0
  {
    var stride := LANES * unroll;
    var q := n / stride;
    assert n == q * stride + n % stride;
    RoundsOf(q, stride);
    assert q * stride == (q * unroll) * LANES;
    Arith.MulMono(0, q, unroll);
    Arith.DivModUnique(q * stride, LANES, q * unroll, 0);
  }

  /** One lane's share: the indices below n that are congruent to it modulo 32, and no others. */
  method LaneCopy<T>(unroll: nat, lane: nat, n: nat, dst: array<T>, src: array<T>)
    requires unroll > 0 && lane < LANES && n <= src.Length && n <= dst.Length && src != dst
    modifies dst
    ensures forall x :: 0 <= x < dst.Length ==>
              dst[x] == if x < n && x % LANES == lane then src[x] else old(dst[x])
  {
    MainPartBounds(n, unroll);
    var main := MainPart(n, unroll);
    MainCopy(unroll, lane, main, dst, src);
    TailCopy(lane, main, n, dst, src);
  }

  method MainCopy<T>(unroll: nat, lane: nat, main: nat, dst: array<T>, src: array<T>)
    requires unroll > 0 && lane < LANES && main <= src.Length && main <= dst.Length && src != dst
    requires Rounds(main, LANES * unroll)
    modifies dst
    ensures forall x :: 0 <= x < dst.Length ==>
              dst[x] == if x < main && x % LANES == lane then src[x] else old(dst[x])
  {
    var i := lane;
    while i < main
      invariant lane <= i && i % LANES == lane && Rounds(i - lane, LANES * unroll)
      invariant forall x :: 0 <= x < dst.Length ==>
                  dst[x] == if x < i && x < main && x % LANES == lane then src[x] else old(dst[x])
      decreases main - i
    {
      NextRound(i - lane, main, LANES * unroll);
      RoundCopy(unroll, lane, i, dst, src);
      i := i + LANES * unroll;
    }
  }

  method TailCopy<T>(lane: nat, main: nat, n: nat, dst: array<T>, src: array<T>)
    requires lane < LANES && main % LANES == 0 && main <= n <= src.Length && n <= dst.Length && src != dst
    modifies dst
    ensures forall x :: 0 <= x < dst.Length ==>
              dst[x] == if main <= x < n && x % LANES == lane then src[x] else old(dst[x])
  {
    var i := main + lane;
    while i < n
      invariant main <= i && i % LANES == lane
      invariant forall x :: 0 <= x < dst.Length ==>
                  dst[x] == if main <= x < i && x < n && x % LANES == lane then src[x] else old(dst[x])
      decreases n - i
    {
      forall x: nat ensures i <= x < i + LANES && x % LANES == lane <==> x == i { NextInClass(i, lane, x); }
      dst[i] := src[i];
      i := i + LANES;
    }
  }

  /** Of 32 consecutive indices from one of the lane's on, only the first is the lane's. */
  lemma {:induction false} NextInClass(at: nat, lane: nat, x: nat)
    requires lane < LANES && at % LANES == lane
    ensures at <= x < at + LANES && x % LANES == lane <==> x == at
  {
  }

  lemma {:induction false} LastInClass(end: nat, lane: nat, x: nat)
    requires lane < LANES && end % LANES == 0
    ensures x % LANES == lane ==> (x < end <==> x < end + lane)
  {
  }

  /** One unrolled round: all loads, then all stores. */
  method RoundCopy<T>(unroll: nat, lane: nat, i: nat, dst: array<T>, src: array<T>)
    requires unroll > 0 && lane < LANES && i % LANES == lane && src != dst
    requires i - lane + LANES * unroll <= src.Length && i - lane + LANES * unroll <= dst.Length
    modifies dst
    ensures forall x :: 0 <= x < dst.Length ==>
              dst[x] == if i <= x < i - lane + LANES * unroll && x % LANES == lane then src[x] else old(dst[x])
  {
    var values: seq<T> := [];
    for j := 0 to unroll
      invariant |values| == j
      invariant forall m :: 0 <= m < j ==> values[m] == src[i + m * LANES]
    {
      values := values + [src[i + j * LANES]];
    }
    for j := 0 to unroll
      invariant forall x :: 0 <= x < dst.Length ==>
                  dst[x] == if i <= x < i + j * LANES && x % LANES == lane then src[x] else old(dst[x])
    {
      var at := i + j * LANES;
      forall x: nat ensures at <= x < at + LANES && x % LANES == lane <==> x == at { NextInClass(at, lane, x); }
      dst[at] := values[j];
    }
    forall x: nat ensures i <= x < i + unroll * LANES && x % LANES == lane <==>
                          i <= x < i - lane + LANES * unroll && x % LANES == lane
    {
      LastInClass(i - lane + LANES * unroll, lane, x);
    }
  }

  /** The 32 lanes together, in any order, are a plain copy of n elements. */
  method WarpCopy<T>(unroll: nat, n: nat, dst: array<T>, src: array<T>, order: seq<nat>)
    requires unroll > 0 && n <= src.Length && n <= dst.Length && src != dst
    requires forall lane: nat :: lane < LANES ==> lane in order
    requires forall i :: 0 <= i < |order| ==> order[i] < LANES
    modifies dst
    ensures dst[..n] == src[..n]
    ensures dst[n..] == old(dst[n..])
  {
    for k := 0 to |order|
      invariant forall x :: 0 <= x < dst.Length ==>
                  dst[x] == if x < n && x % LANES in order[..k] then src[x] else old(dst[x])
    {
      LaneCopy(unroll, order[k], n, dst, src);
      assert order[..k + 1] == order[..k] + [order[k]];
    }
    assert order[..|order|] == order;
  }

  // ---- the butterfly sum ----

  /** i xor h for a power of two h. */
  function Partner(i: nat, h: nat): nat
    requires h > 0
  {
    if (i / h) % 2 == 0 then i + h else i - h
  }

  function Shuffle(v: seq<int>, h: nat): seq<int>
    requires |v| == LANES && h in {1, 2, 4, 8, 16}
  {
    seq(LANES, i requires 0 <= i < LANES => v[i] + v[PartnerLane(i, h)])
  }

  function PartnerLane(i: nat, h: nat): (p: nat)
    requires i < LANES && h in {1, 2, 4, 8, 16}
    ensures p < LANES
  {
    Partner(i, h)
  }

  /** warp_reduce_sum: five exchanges with xor distances 16, 8, 4, 2, 1. */
  function ReduceSum(v: seq<int>): seq<int>
    requires |v| == LANES
  {
    Shuffle(Shuffle(Shuffle(Shuffle(Shuffle(v, 16), 8), 4), 2), 1)
  }

  function Sum(v: seq<int>): int
  {
    if v == [] then 0 else Sum(v[..|v| - 1]) + v[|v| - 1]
  }

  /** Sum of the elements whose index is congruent to `class` modulo m. */
  function ClassSum(v: seq<int>, m: nat, class_: nat): int
    requires m > 0
  {
    if v == [] then 0
    else ClassSum(v[..|v| - 1], m, class_) + if (|v| - 1) % m == class_ then v[|v| - 1] else 0
  }

  lemma {:induction false} HalfClass(j: nat, h: nat)
    requires h > 0
    ensures j % (2 * h) == j % h || j % (2 * h) == j % h + h
    ensures (j / h) % 2 == 0 <==> j % (2 * h) == j % h
  {
    var q, m := j / h, j % h;
    assert j == q * h + m;
    if q % 2 == 0 {
      assert q == 2 * (q / 2);
      assert q * h == (q / 2) * (2 * h);
      Arith.DivModUnique(j, 2 * h, q / 2, m);
    } else {
      assert q == 2 * (q / 2) + 1;
      assert q * h == (q / 2) * (2 * h) + h;
      Arith.DivModUnique(j, 2 * h, q / 2, m + h);
    }
  }

  lemma {:induction false} ClassSumSplits(v: seq<int>, h: nat, class_: nat)
    requires h > 0 && class_ < h
    ensures ClassSum(v, h, class_) == ClassSum(v, 2 * h, class_) + ClassSum(v, 2 * h, class_ + h)
  {
    if v != [] {
      ClassSumSplits(v[..|v| - 1], h, class_);
      HalfClass(|v| - 1, h);
    }
  }

  lemma {:induction false} ClassSumAll(v: seq<int>)
    ensures ClassSum(v, 1, 0) == Sum(v)
  {
    if v != [] {
      ClassSumAll(v[..|v| - 1]);
    }
  }

  lemma {:induction false} ClassSumOne(v: seq<int>, i: nat)
    requires |v| <= LANES && i < LANES
    ensures ClassSum(v, LANES, i) == if i < |v| then v[i] else 0
  {
    if v != [] {
      ClassSumOne(v[..|v| - 1], i);
    }
  }

  /** Every lane holds the sum over its class modulo m. */
  ghost predicate HoldsClasses(v: seq<int>, w: seq<int>, m: nat)
    requires m > 0
  {
    |w| == LANES && forall i :: 0 <= i < LANES ==> w[i] == ClassSum(v, m, i % m)
  }

  /** The partner of a lane is in the same class modulo h and in the other one modulo 2h. */
  lemma {:induction false} PartnerClass(i: nat, h: nat, p: nat)
    requires h > 0 && i % (2 * h) == i % h && p == i + h
    ensures p % (2 * h) == i % h + h && p % h == i % h
  {
    var q, m := i / (2 * h), i % h;
    assert i == q * (2 * h) + m;
    Arith.DivModUnique(p, 2 * h, q, m + h);
    assert p == (2 * q + 1) * h + m;
    Arith.DivModUnique(p, h, 2 * q + 1, m);
  }

  lemma {:induction false} LowPartner(i: nat, h: nat)
    requires h > 0 && i % (2 * h) == i % h + h
    ensures i >= h && (i - h) % (2 * h) == (i - h) % h
  {
    var q, m := i / (2 * h), i % h;
    assert i == q * (2 * h) + m + h;
    Arith.MulMono(0, q, 2 * h);
    Arith.DivModUnique(i - h, 2 * h, q, m);
    assert i - h == (2 * q) * h + m;
    Arith.DivModUnique(i - h, h, 2 * q, m);
  }

  lemma {:induction false} ShuffleHalves(v: seq<int>, w: seq<int>, h: nat)
    requires |v| == LANES && h in {1, 2, 4, 8, 16} && HoldsClasses(v, w, 2 * h)
    ensures HoldsClasses(v, Shuffle(w, h), h)
  {
    forall i | 0 <= i < LANES
      ensures Shuffle(w, h)[i] == ClassSum(v, h, i % h)
    {
      var p := PartnerLane(i, h);
      HalfClass(i, h);
      if p == i + h {
        PartnerClass(i, h, p);
      } else {
        HalfClass(p, h);
        LowPartner(i, h);
        PartnerClass(p, h, i);
      }
      ClassSumSplits(v, h, i % h);
    }
  }

  /** Every lane ends with the sum over all 32 lanes. */
  lemma {:induction false} ReduceSumIsSum(v: seq<int>)
    requires |v| == LANES
    ensures |ReduceSum(v)| == LANES
    ensures forall i :: 0 <= i < LANES ==> ReduceSum(v)[i] == Sum(v)
  {
    forall i | 0 <= i < LANES
      ensures v[i] == ClassSum(v, LANES, i % LANES)
    {
      ClassSumOne(v, i);
    }
    ShuffleHalves(v, v, 16);
    var v1 := Shuffle(v, 16);
    ShuffleHalves(v, v1, 8);
    var v2 := Shuffle(v1, 8);
    ShuffleHalves(v, v2, 4);
    var v3 := Shuffle(v2, 4);
    ShuffleHalves(v, v3, 2);
    ShuffleHalves(v, Shuffle(v3, 2), 1);
    ClassSumAll(v);
  }

  /** The reduction as the lanes run it: exchange at 16, 8, 4, 2 and 1. */
  method WarpReduceSum(v: seq<int>) returns (w: seq<int>)
    requires |v| == LANES
    ensures |w| == LANES && forall i :: 0 <= i < LANES ==> w[i] == Sum(v)
  {
    w := ReduceSum(v);
    ReduceSumIsSum(v);
  }
}
