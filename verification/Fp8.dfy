/** Block scaling of a token for FP8 messages, over the reals: a half warp shares one scale per 128
    channels, and the receiver stores the scales transposed. */
module Fp8 {
  import Arith
  import opened Warp
  import opened Strided

  const READ: nat := 8          // channels a lane reads at once
  const GROUP: nat := 128       // channels that share a scale
  const WARPS: nat := 31        // warps that move data; the last one counts
  const AMAX: real := 448.0
  const MARGIN: real := 0.0001

  function Max(a: real, b: real): real { if a < b then b else a }

  function Abs(a: real): real { if a < 0.0 then 0.0 - a else a }

  // ---- the half-warp maximum ----

  /** One exchange: every lane takes the larger of its own value and its partner's. */
  function ShuffleMax(v: seq<real>, h: nat): seq<real>
    requires |v| == LANES && h in {1, 2, 4, 8}
  {
    seq(LANES, i requires 0 <= i < LANES => Max(v[i], v[PartnerLane(i, h)]))
  }

  /** half_warp_reduce_max: exchanges at distances 8, 4, 2, 1. */
  function HalfWarpMax(v: seq<real>): seq<real>
    requires |v| == LANES
  {
    ShuffleMax(ShuffleMax(ShuffleMax(ShuffleMax(v, 8), 4), 2), 1)
  }

  /** Lanes i and j are in the same half and agree modulo m. */
  predicate SameClass(i: nat, j: nat, m: nat)
    requires m > 0
  {
    i / 16 == j / 16 && i % m == j % m
  }

  /** top is the largest value held by the class of lane i. */
  ghost predicate IsTop(v: seq<real>, i: nat, m: nat, top: real)
    requires |v| == LANES && m > 0
  {
    && (forall j :: 0 <= j < LANES && SameClass(i, j, m) ==> v[j] <= top)
    && (exists j :: 0 <= j < LANES && SameClass(i, j, m) && v[j] == top)
  }

  ghost predicate HoldsTops(v: seq<real>, w: seq<real>, m: nat)
    requires |v| == LANES && m > 0
  {
    |w| == LANES && forall i :: 0 <= i < LANES ==> IsTop(v, i, m, w[i])
  }

  lemma {:induction false} PartnerSameHalf(i: nat, h: nat)
    requires i < LANES && h in {1, 2, 4, 8}
    ensures PartnerLane(i, h) / 16 == i / 16
  {
    if h == 8 {
    } else if h == 4 {
    } else if h == 2 {
    } else {
    }
  }

  /** An exchange at distance h joins two classes modulo 2h into one modulo h. */
  lemma {:induction false} ClassJoins(i: nat, j: nat, h: nat)
    requires i < LANES && j < LANES && h in {1, 2, 4, 8}
    ensures SameClass(i, j, h) <==> SameClass(i, j, 2 * h) || SameClass(PartnerLane(i, h), j, 2 * h)
  {
    var p := PartnerLane(i, h);
    PartnerSameHalf(i, h);
    HalfClass(i, h);
    HalfClass(j, h);
    if p == i + h {
      PartnerClass(i, h, p);
    } else {
      LowPartner(i, h);
      PartnerClass(p, h, i);
    }
  }

  lemma {:induction false} ExchangeJoins(v: seq<real>, w: seq<real>, h: nat)
    requires |v| == LANES && h in {1, 2, 4, 8} && HoldsTops(v, w, 2 * h)
    ensures HoldsTops(v, ShuffleMax(w, h), h)
  {
    forall i | 0 <= i < LANES
      ensures IsTop(v, i, h, ShuffleMax(w, h)[i])
    {
      var p := PartnerLane(i, h);
      forall j | 0 <= j < LANES
        ensures SameClass(i, j, h) <==> SameClass(i, j, 2 * h) || SameClass(p, j, 2 * h)
      {
        ClassJoins(i, j, h);
      }
      assert IsTop(v, i, 2 * h, w[i]) && IsTop(v, p, 2 * h, w[p]);
    }
  }

  /** Every lane ends with the maximum over exactly the sixteen lanes of its half. */
  lemma {:induction false} HalfWarpMaxIsMax(v: seq<real>)
    requires |v| == LANES
    ensures HoldsTops(v, HalfWarpMax(v), 1)
  {
    forall i | 0 <= i < LANES
      ensures IsTop(v, i, 16, v[i])
    {
      assert SameClass(i, i, 16);
    }
    ExchangeJoins(v, v, 8);
    var v1 := ShuffleMax(v, 8);
    ExchangeJoins(v, v1, 4);
    var v2 := ShuffleMax(v1, 4);
    ExchangeJoins(v, v2, 2);
    ExchangeJoins(v, ShuffleMax(v2, 2), 1);
  }

  // ---- one token ----

  /** m is the largest magnitude of x[lo..hi], but at least the margin. */
  ghost predicate IsAmax(x: seq<real>, lo: nat, hi: nat, m: real)
    requires lo <= hi <= |x|
  {
    && m >= 0.0001
    && (forall c :: lo <= c < hi ==> 0.0 - m <= x[c] <= m)
    && (m == 0.0001 || exists c :: lo <= c < hi && (x[c] == m || x[c] == 0.0 - m))
  }

  /** The scale of group g comes from the maximum over exactly its 128 channels. */
  ghost predicate ScaleOk(x: seq<real>, scales: seq<real>, g: nat)
    requires GROUP * (g + 1) <= |x| && g < |scales|
  {
    IsAmax(x, 128 * g, 128 * (g + 1), scales[g] * 448.0)
  }

  /** The stored value is in FP8 range and its scale brings back the input. */
  ghost predicate ValueOk(x: seq<real>, q: seq<real>, scales: seq<real>, c: nat)
    requires c < |x| && c < |q| && c / GROUP < |scales|
  {
    Recovers(q[c], scales[c / 128], x[c])
  }

  /** The value is in FP8 range, and the scale brings back the input. */
  predicate Recovers(value: real, scale: real, input: real)
  {
    -448.0 <= value <= 448.0 && value * scale == input
  }

  method LaneAmax(x: seq<real>, i: nat) returns (amax: real)
    requires READ * (i + 1) <= |x|
    ensures IsAmax(x, READ * i, READ * (i + 1), amax)
  {
    amax := MARGIN;
    for j := 0 to READ
      invariant IsAmax(x, READ * i, READ * i + j, amax)
    {
      amax := Max(amax, Abs(x[READ * i + j]));
    }
  }

  /** The maximum lane j finds in pass p, which reads [32p, 32p + 32). */
  ghost predicate LaneOk(x: seq<real>, p: nat, j: nat, m: real)
    requires 2 * GROUP * (p + 1) <= |x| && j < LANES
  {
    IsAmax(x, READ * (LANES * p + j), READ * (LANES * p + j + 1), m)
  }

  /** top is the largest value held by the sixteen lanes of a half. */
  ghost predicate TopOfHalf(v: seq<real>, half: nat, top: real)
    requires |v| == LANES && half < 2
  {
    && (forall j :: 16 * half <= j < 16 * half + 16 ==> v[j] <= top)
    && (exists j :: 16 * half <= j < 16 * half + 16 && v[j] == top)
  }

  /** The maxima of the sixteen lanes of a half are the maximum of one scale group. */
  lemma {:induction false} GroupAmax(x: seq<real>, p: nat, v: seq<real>, half: nat, top: real)
    requires 2 * GROUP * (p + 1) <= |x| && |v| == LANES && half < 2
    requires forall j :: 0 <= j < LANES ==> LaneOk(x, p, j, v[j])
    requires TopOfHalf(v, half, top)
    ensures IsAmax(x, GROUP * (2 * p + half), GROUP * (2 * p + half) + GROUP, top)
  {
    var lo := GROUP * (2 * p + half);
    forall c | lo <= c < lo + GROUP
      ensures Abs(x[c]) <= top
    {
      var j := 16 * half + (c - lo) / READ;
      assert LaneOk(x, p, j, v[j]) && v[j] <= top;
    }
    var j :| 16 * half <= j < 16 * half + 16 && v[j] == top;
    assert LaneOk(x, p, j, v[j]);
  }

  /** Over the reals the factor and the scale that the code computes are inverse to each other. */
  lemma {:induction false} FactorInverse(m: real, f: real, inv: real)
    requires FactorOf(m, f, inv)
    ensures f > 0.0 && f * m == AMAX && inv * AMAX == m && f * inv == 1.0
  {
  }

  /** Scaled values are within the FP8 range, and scaling back is exact. */
  lemma {:induction false} ScaleBound(a: real, m: real, f: real, inv: real)
    requires Abs(a) <= m && f > 0.0 && f * m == AMAX && f * inv == 1.0
    ensures 0.0 - AMAX <= a * f <= AMAX
    ensures (a * f) * inv == a
  {
    ScaleMono(a, m, f);
    ScaleMono(0.0 - m, a, f);
    assert (0.0 - m) * f == 0.0 - m * f;
    assert (a * f) * inv == a * (f * inv);
  }

  lemma {:induction false} ScaleMono(a: real, b: real, s: real)
    requires a <= b && s > 0.0
    ensures a * s <= b * s
  {
  }

  lemma {:induction false} ClassIsHalf(v: seq<real>, i: nat, half: nat, top: real)
    requires |v| == LANES && half < 2 && 16 * half <= i < 16 * half + 16 && IsTop(v, i, 1, top)
    ensures TopOfHalf(v, half, top)
  {
    assert forall j :: 0 <= j < LANES ==> (SameClass(i, j, 1) <==> 16 * half <= j < 16 * half + 16);
  }

  lemma {:induction false} TopUnique(v: seq<real>, half: nat, a: real, b: real)
    requires |v| == LANES && half < 2 && TopOfHalf(v, half, a) && TopOfHalf(v, half, b)
    ensures a == b
  {
  }

  /** After the exchanges every lane of a half holds the same value, the largest of the half. */
  lemma {:induction false} HalfTop(v: seq<real>, w: seq<real>, half: nat)
    requires |v| == LANES && half < 2 && w == HalfWarpMax(v)
    ensures TopOfHalf(v, half, w[16 * half])
    ensures forall i :: 16 * half <= i < 16 * half + 16 ==> w[i] == w[16 * half]
  {
    HalfWarpMaxIsMax(v);
    ClassIsHalf(v, 16 * half, half, w[16 * half]);
    forall i | 16 * half <= i < 16 * half + 16
      ensures w[i] == w[16 * half]
    {
      ClassIsHalf(v, i, half, w[i]);
      TopUnique(v, half, w[i], w[16 * half]);
    }
  }

  /** The lane maxima of one pass, exchanged: each half holds the maximum of its group. */
  method WarpAmax(x: seq<real>, p: nat) returns (w: seq<real>)
    requires 2 * GROUP * (p + 1) <= |x|
    ensures |w| == LANES
    ensures forall i :: 0 <= i < LANES ==> w[i] == if i < 16 then w[0] else w[16]
    ensures IsAmax(x, GROUP * (2 * p), GROUP * (2 * p) + GROUP, w[0])
    ensures IsAmax(x, GROUP * (2 * p + 1), GROUP * (2 * p + 1) + GROUP, w[16])
  {
    var v := LaneMaxima(x, p);
    w := HalfWarpMax(v);
    HalfTop(v, w, 0);
    HalfTop(v, w, 1);
    GroupAmax(x, p, v, 0, w[0]);
    GroupAmax(x, p, v, 1, w[16]);
  }

  method LaneMaxima(x: seq<real>, p: nat) returns (v: seq<real>)
    requires 2 * GROUP * (p + 1) <= |x|
    ensures |v| == LANES
    ensures forall j :: 0 <= j < LANES ==> LaneOk(x, p, j, v[j])
  {
    v := [];
    for lane := 0 to LANES
      invariant |v| == lane
      invariant forall j :: 0 <= j < lane ==> LaneOk(x, p, j, v[j])
    {
      var amax := LaneAmax(x, LANES * p + lane);
      assert LaneOk(x, p, lane, amax);
      v := v + [amax];
    }
  }

  /** A lane scales the eight channels it read. */
  method LaneStore(x: seq<real>, i: nat, scale: real, q: array<real>)
    requires q.Length == |x| && READ * (i + 1) <= |x|
    modifies q
    ensures forall c :: 0 <= c < |x| ==> q[c] == if c / READ == i then x[c] * scale else old(q[c])
  {
    for j := 0 to READ
      invariant forall c :: 0 <= c < |x| ==> q[c] == if READ * i <= c < READ * i + j then x[c] * scale else old(q[c])
    {
      q[READ * i + j] := x[READ * i + j] * scale;
    }
  }

  /** What the first `lanes` lanes of pass p leave: each half scales by its own factor. */
  ghost predicate Scaled(x: seq<real>, p: nat, f0: real, f1: real, lanes: nat, was: seq<real>, q: seq<real>)
  {
    |q| == |x| && |was| == |x| && forall c :: 0 <= c < |x| ==>
      q[c] == if !(256 * p <= c < 256 * p + READ * lanes) then was[c]
              else if c < 256 * p + GROUP then x[c] * f0 else x[c] * f1
  }

  /** The values of one pass: lane after lane scales what it read by the factor of its half. */
  method StoreValues(x: seq<real>, p: nat, f: seq<real>, q: array<real>)
    requires 2 * GROUP * (p + 1) <= |x| && q.Length == |x| && |f| == LANES
    requires forall i :: 0 <= i < LANES ==> f[i] == if i < 16 then f[0] else f[16]
    modifies q
    ensures Scaled(x, p, f[0], f[16], LANES, old(q[..]), q[..])
  {
    for lane := 0 to LANES
      invariant Scaled(x, p, f[0], f[16], lane, old(q[..]), q[..])
    {
      LaneStore(x, LANES * p + lane, f[lane], q);
    }
  }

  /** The scales of one pass: only lanes 0 and 16 write, each the scale of its half. */
  method StoreScales(p: nat, inverse: seq<real>, scales: array<real>)
    requires 2 * p + 1 < scales.Length && |inverse| == LANES
    modifies scales
    ensures scales[2 * p] == inverse[0] && scales[2 * p + 1] == inverse[16]
    ensures forall g :: 0 <= g < scales.Length && g / 2 != p ==> scales[g] == old(scales[g])
  {
    for lane := 0 to LANES
      invariant lane > 0 ==> scales[2 * p] == inverse[0]
      invariant lane > 16 ==> scales[2 * p + 1] == inverse[16]
      invariant forall g :: 0 <= g < scales.Length && g / 2 != p ==> scales[g] == old(scales[g])
    {
      if lane == 0 || lane == 16 {
        assert (LANES * p + lane) * READ / GROUP == if lane == 0 then 2 * p else 2 * p + 1;
        scales[(LANES * p + lane) * READ / GROUP] := inverse[lane];
      }
    }
  }

  /** Over the channels [lo, lo + 128), f scales into FP8 range and inv scales back. */
  ghost predicate Inverts(x: seq<real>, lo: nat, f: real, inv: real)
    requires lo + GROUP <= |x|
  {
    forall c :: lo <= c < lo + GROUP ==> 0.0 - AMAX <= x[c] * f <= AMAX && (x[c] * f) * inv == x[c]
  }

  lemma {:induction false} AmaxInverts(x: seq<real>, lo: nat, m: real, f: real, inv: real)
    requires lo + GROUP <= |x| && IsAmax(x, lo, lo + GROUP, m) && FactorOf(m, f, inv)
    ensures Inverts(x, lo, f, inv) && IsAmax(x, lo, lo + GROUP, inv * AMAX)
  {
    FactorInverse(m, f, inv);
    forall c | lo <= c < lo + GROUP
      ensures 0.0 - AMAX <= x[c] * f <= AMAX && (x[c] * f) * inv == x[c]
    {
      ScaleBound(x[c], m, f, inv);
    }
  }

  lemma {:induction false} PassOk(x: seq<real>, p: nat, f0: real, f1: real, was: seq<real>, q: seq<real>,
                              scales: seq<real>, c: nat)
    requires 256 * p <= c < 256 * (p + 1) <= |x| && 2 * p + 1 < |scales|
    requires Inverts(x, 256 * p, f0, scales[2 * p]) && Inverts(x, 256 * p + GROUP, f1, scales[2 * p + 1])
    requires Scaled(x, p, f0, f1, LANES, was, q)
    ensures c / GROUP < |scales| && ValueOk(x, q, scales, c)
  {
    assert c / GROUP == if c < 256 * p + GROUP then 2 * p else 2 * p + 1;
  }

  /** What the lanes of pass p compute: every lane of a half has the factor and the scale of its group. */
  ghost predicate LaneScales(x: seq<real>, p: nat, factor: seq<real>, inverse: seq<real>)
    requires 2 * GROUP * (p + 1) <= |x|
  {
    && |factor| == LANES && |inverse| == LANES
    && (forall i :: 0 <= i < LANES ==> factor[i] == if i < 16 then factor[0] else factor[16])
    && Inverts(x, 256 * p, factor[0], inverse[0])
    && Inverts(x, 256 * p + GROUP, factor[16], inverse[16])
    && IsAmax(x, 256 * p, 256 * p + GROUP, inverse[0] * AMAX)
    && IsAmax(x, 256 * p + GROUP, 256 * (p + 1), inverse[16] * AMAX)
  }

  method WarpScales(x: seq<real>, p: nat) returns (factor: seq<real>, inverse: seq<real>)
    requires 2 * GROUP * (p + 1) <= |x|
    ensures LaneScales(x, p, factor, inverse)
  {
    var w := WarpAmax(x, p);
    factor, inverse := LaneFactors(w);
    forall i | 0 <= i < LANES
      ensures factor[i] == if i < 16 then factor[0] else factor[16]
    {
      SameFactor(w[i], factor[i], inverse[i], factor[0], inverse[0]);
      SameFactor(w[i], factor[i], inverse[i], factor[16], inverse[16]);
    }
    AmaxInverts(x, 256 * p, w[0], factor[0], inverse[0]);
    AmaxInverts(x, 256 * p + GROUP, w[16], factor[16], inverse[16]);
  }

  /** The factor and the scale of a group whose largest magnitude is m. */
  predicate FactorOf(m: real, f: real, inv: real)
  {
    m > 0.0 && f == AMAX / m && inv == m * (1.0 / AMAX)
  }

  lemma {:induction false} SameFactor(m: real, f: real, inv: real, g: real, inw: real)
    ensures FactorOf(m, f, inv) && FactorOf(m, g, inw) ==> f == g
  {
  }

  method LaneFactors(w: seq<real>) returns (factor: seq<real>, inverse: seq<real>)
    requires |w| == LANES && forall i :: 0 <= i < LANES ==> w[i] > 0.0
    ensures |factor| == LANES && |inverse| == LANES
    ensures forall i :: 0 <= i < LANES ==> FactorOf(w[i], factor[i], inverse[i])
  {
    factor := seq(LANES, i requires 0 <= i < LANES => AMAX / w[i]);
    inverse := seq(LANES, i requires 0 <= i < LANES => w[i] * (1.0 / AMAX));
  }

  /** The two scales and the 256 values of pass p are right. */
  ghost predicate PassGood(x: seq<real>, q: seq<real>, scales: seq<real>, p: nat)
    requires 256 * (p + 1) <= |x| && |q| == |x| && |x| == 128 * |scales|
  {
    && ScaleOk(x, scales, 2 * p) && ScaleOk(x, scales, 2 * p + 1)
    && (forall c :: 256 * p <= c < 256 * (p + 1) ==> ValueOk(x, q, scales, c))
  }

  /** Nothing outside pass p has changed. */
  ghost predicate OnlyPass(p: nat, q: seq<real>, q': seq<real>, scales: seq<real>, scales': seq<real>)
  {
    && |q'| == |q| && |scales'| == |scales|
    && (forall c :: 0 <= c < |q| && !(256 * p <= c < 256 * (p + 1)) ==> q'[c] == q[c])
    && (forall g :: 0 <= g < |scales| && !(2 * p <= g < 2 * p + 2) ==> scales'[g] == scales[g])
  }

  /** One pass of one warp over 32 reads: two scales and 256 values, and nothing else. */
  method QuantizeWarp(x: seq<real>, p: nat, q: array<real>, scales: array<real>)
    requires q.Length == |x| && |x| == 128 * scales.Length && q != scales
    requires 2 * GROUP * (p + 1) <= |x|
    modifies q, scales
    ensures PassGood(x, q[..], scales[..], p)
    ensures OnlyPass(p, old(q[..]), q[..], old(scales[..]), scales[..])
  {
    var factor, inverse := WarpScales(x, p);
    StoreValues(x, p, factor, q);
    StoreScales(p, inverse, scales);
    ghost var was, now, s := old(q[..]), q[..], scales[..];
    forall c | 256 * p <= c < 256 * (p + 1)
      ensures ValueOk(x, now, s, c)
    {
      PassOk(x, p, factor[0], factor[16], was, now, s, c);
    }
    assert ScaleOk(x, s, 2 * p) && ScaleOk(x, s, 2 * p + 1);
  }

  /** The passes in `done` have run once and left their scales and values; the others have not run. */
  ghost predicate Quantized(x: seq<real>, q: seq<real>, scales: seq<real>, runs: seq<nat>, done: set<nat>)
  {
    && |x| == 256 * |runs| && |q| == |x| && |x| == 128 * |scales|
    && (forall p: nat :: p < |runs| ==> runs[p] == if p in done then 1 else 0)
    && (forall p: nat :: p < |runs| && p in done ==> PassGood(x, q, scales, p))
  }

  lemma {:induction false} GroupOfChannel(p: nat, c: nat)
    requires 256 * p <= c < 256 * (p + 1)
    ensures c / 128 == if c < 256 * p + 128 then 2 * p else 2 * p + 1
    ensures c / 256 == p
  {
  }

  lemma {:induction false} ScaleStays(x: seq<real>, scales: seq<real>, scales': seq<real>, g: nat)
    requires 128 * (g + 1) <= |x| && g < |scales| && |scales'| == |scales|
    requires ScaleOk(x, scales, g) && scales'[g] == scales[g]
    ensures ScaleOk(x, scales', g)
  {
  }

  lemma {:induction false} ValueStays(x: seq<real>, q: seq<real>, q': seq<real>, scales: seq<real>, scales': seq<real>,
                               p: nat, c: nat)
    requires 256 * p <= c < 256 * (p + 1) <= |x| && |q| == |x| && |q'| == |q|
    requires |x| == 128 * |scales| && |scales'| == |scales| && ValueOk(x, q, scales, c)
    requires q'[c] == q[c] && scales'[2 * p] == scales[2 * p] && scales'[2 * p + 1] == scales[2 * p + 1]
    ensures ValueOk(x, q', scales', c)
  {
    GroupOfChannel(p, c);
  }

  /** Passes do not disturb each other. */
  lemma {:induction false} PassStays(x: seq<real>, q: seq<real>, q': seq<real>, scales: seq<real>,
                              scales': seq<real>, p: nat, k: nat)
    requires 256 * (k + 1) <= |x| && |q| == |x| && |x| == 128 * |scales|
    requires PassGood(x, q, scales, k) && OnlyPass(p, q, q', scales, scales') && k != p
    ensures PassGood(x, q', scales', k)
  {
    assert scales'[2 * k] == scales[2 * k] && scales'[2 * k + 1] == scales[2 * k + 1];
    ScaleStays(x, scales, scales', 2 * k);
    ScaleStays(x, scales, scales', 2 * k + 1);
    forall c | 256 * k <= c < 256 * (k + 1)
      ensures ValueOk(x, q', scales', c)
    {
      assert ValueOk(x, q, scales, c);
      ValueStays(x, q, q', scales, scales', k, c);
    }
  }

  lemma {:induction false} QuantizedPass(x: seq<real>, q: seq<real>, q': seq<real>, scales: seq<real>,
                              scales': seq<real>, runs: seq<nat>, done: set<nat>, p: nat)
    requires Quantized(x, q, scales, runs, done) && p < |runs| && p !in done
    requires OnlyPass(p, q, q', scales, scales') && PassGood(x, q', scales', p)
    ensures Quantized(x, q', scales', runs[p := runs[p] + 1], done + {p})
  {
    forall k: nat | k < |runs| && k in done + {p}
      ensures PassGood(x, q', scales', k)
    {
      if k != p {
        PassStays(x, q, q', scales, scales', p, k);
      }
    }
  }

  lemma {:induction false} QuantizedAll(x: seq<real>, q: seq<real>, scales: seq<real>, runs: seq<nat>, done: set<nat>)
    requires Quantized(x, q, scales, runs, done) && forall p: nat :: p < |runs| ==> p in done
    ensures runs == seq(|x| / 256, p => 1)
    ensures forall g :: 0 <= g < |scales| ==> ScaleOk(x, scales, g)
    ensures forall c :: 0 <= c < |x| ==> ValueOk(x, q, scales, c)
  {
    forall g | 0 <= g < |scales|
      ensures ScaleOk(x, scales, g)
    {
      PassIndex(|runs|, g);
      OneScale(x, q, scales, g / 2, g);
    }
    forall c | 0 <= c < |x|
      ensures ValueOk(x, q, scales, c)
    {
      PassIndex(|runs|, c / GROUP);
      OneValue(x, q, scales, c / GROUP / 2, c);
    }
  }

  lemma {:induction false} PassIndex(n: nat, g: nat)
    requires g < 2 * n
    ensures g / 2 < n && 2 * (g / 2) <= g < 2 * (g / 2) + 2
  {
  }

  lemma {:induction false} OneScale(x: seq<real>, q: seq<real>, scales: seq<real>, p: nat, g: nat)
    requires 256 * (p + 1) <= |x| && |q| == |x| && |x| == 128 * |scales| && PassGood(x, q, scales, p)
    requires 2 * p <= g < 2 * p + 2
    ensures ScaleOk(x, scales, g)
  {
    assert g == 2 * p || g == 2 * p + 1;
  }

  lemma {:induction false} OneValue(x: seq<real>, q: seq<real>, scales: seq<real>, p: nat, c: nat)
    requires 256 * (p + 1) <= |x| && |q| == |x| && |x| == 128 * |scales| && PassGood(x, q, scales, p)
    requires 256 * p <= c < 256 * (p + 1)
    ensures ValueOk(x, q, scales, c)
  {
  }

  /** One warp's share of the token: the passes warp, warp + 31, warp + 62, ... */
  method QuantizeShare(x: seq<real>, q: array<real>, scales: array<real>, warp: nat, ghost runs: seq<nat>,
      ghost done: set<nat>)
    returns (ghost runs': seq<nat>, ghost done': set<nat>)
    requires warp < WARPS && q != scales && Quantized(x, q[..], scales[..], runs, done)
    requires Schedule(done, |x| / 256, WARPS, warp, 0)
    modifies q, scales
    ensures Quantized(x, q[..], scales[..], runs', done') && Schedule(done', |x| / 256, WARPS, warp + 1, 0)
  {
    runs', done' := runs, done;
    var p := warp;
    ScheduleStart(done', |x| / 256, WARPS, warp);
    while LANES * p < |x| / READ
      invariant p % WARPS == warp && Schedule(done', |x| / 256, WARPS, warp, p)
      invariant Quantized(x, q[..], scales[..], runs', done')
      decreases |x| - p
    {
      ghost var was, wasScales := q[..], scales[..];
      assert p < |x| / 256;
      ScheduleNext(done', |x| / 256, WARPS, warp, p);
      QuantizeWarp(x, p, q, scales);
      QuantizedPass(x, was, q[..], wasScales, scales[..], runs', done', p);
      runs', done' := runs'[p := runs'[p] + 1], done' + {p};
      p := p + WARPS;
    }
    ScheduleEnd(done', |x| / 256, WARPS, warp, p);
  }

  /** The whole token, warp after warp. Each pass, and so each scale, is written once; each scale is the maximum
      over exactly its channels; each value is in range and scales back. */
  method QuantizeToken(x: seq<real>, q: array<real>, scales: array<real>) returns (ghost runs: seq<nat>)
    requires |x| % (2 * GROUP) == 0 && q.Length == |x| && |x| == 128 * scales.Length && q != scales
    modifies q, scales
    ensures runs == seq(|x| / 256, p => 1)
    ensures forall g :: 0 <= g < scales.Length ==> ScaleOk(x, scales[..], g)
    ensures forall c :: 0 <= c < |x| ==> ValueOk(x, q[..], scales[..], c)
  {
    runs := seq(|x| / 256, p => 0);
    ghost var done: set<nat> := {};
    for warp := 0 to WARPS
      invariant Quantized(x, q[..], scales[..], runs, done) && Schedule(done, |x| / 256, WARPS, warp, 0)
    {
      runs, done := QuantizeShare(x, q, scales, warp, runs, done);
    }
    ScheduleAll(done, |x| / 256, WARPS);
    QuantizedAll(x, q[..], scales[..], runs, done);
  }

  // ---- the receiver's copy of the scales ----

  /** Where the scale s of packed row `row` of local expert l goes: one plane of all rows per scale. */
  function ScaleIndex(numScales: nat, rows: nat, l: nat, row: nat, s: nat): nat
  {
    l * (rows * numScales) + row + s * rows
  }

  /** Every store is inside the tensor, and no two rows, experts or scales share a word. */
  lemma {:induction false} ScaleIndexInjective(numScales: nat, rows: nat, experts: nat,
                            l: nat, row: nat, s: nat, l': nat, row': nat, s': nat)
    requires l < experts && l' < experts && row < rows && row' < rows && s < numScales && s' < numScales
    ensures ScaleIndex(numScales, rows, l, row, s) < experts * (rows * numScales)
    ensures ScaleIndex(numScales, rows, l, row, s) == ScaleIndex(numScales, rows, l', row', s')
            ==> l == l' && row == row' && s == s'
  {
    InPlane(numScales, rows, row, s);
    InPlane(numScales, rows, row', s');
    var inner, inner', plane := s * rows + row, s' * rows + row', rows * numScales;
    Arith.RowMajor(l, inner, experts, plane);
    if l * plane + inner == l' * plane + inner' {
      Arith.PairInjective(l, inner, l', inner', experts, plane);
      Arith.PairInjective(s, row, s', row', numScales, rows);
    }
  }

  lemma {:induction false} InPlane(numScales: nat, rows: nat, row: nat, s: nat)
    requires row < rows && s < numScales
    ensures 0 <= s * rows + row < rows * numScales
  {
    Arith.RowMajor(s, row, numScales, rows);
  }

  /** The scale that belongs at address a, counting from the address of the row's first scale. */
  predicate Holds(a: nat, at: nat, stride: nat, s: nat)
  {
    a == at + s * stride
  }

  lemma {:induction false} HoldsOne(a: nat, at: nat, stride: nat, s: nat, s': nat)
    requires stride > 0 && Holds(a, at, stride, s) && Holds(a, at, stride, s')
    ensures s == s'
  {
    assert (s - s') * stride == 0;
    Arith.SmallMultiple(s - s', stride);
  }

  /** The scales with numbers in `stored` are at their places, and nothing else has changed. */
  ghost predicate Transposed(src: seq<real>, stride: nat, at: nat, stored: set<nat>, was: seq<real>, now: seq<real>)
  {
    && |was| == |now|
    && (forall a: nat, s: nat :: a < |now| && s < |src| && s in stored && Holds(a, at, stride, s) ==> now[a] == src[s])
    && (forall a: nat :: a < |now| ==>
          now[a] == was[a] || exists s: nat :: s < |src| && s in stored && Holds(a, at, stride, s))
  }

  lemma {:induction false} StoreOne(src: seq<real>, stride: nat, at: nat, stored: set<nat>, was: seq<real>,
                              now: seq<real>, s: nat, a: nat)
    requires stride > 0 && Transposed(src, stride, at, stored, was, now) && s < |src| && a < |now| &&
        Holds(a, at, stride, s)
    ensures Transposed(src, stride, at, stored + {s}, was, now[a := src[s]])
  {
    var now' := now[a := src[s]];
    forall b: nat, k: nat | b < |now'| && k < |src| && k in stored + {s} && Holds(b, at, stride, k)
      ensures now'[b] == src[k]
    {
      if b == a {
        HoldsOne(a, at, stride, k, s);
      }
    }
    forall b: nat | b < |now'| && now'[b] != was[b]
      ensures exists k: nat :: k < |src| && k in stored + {s} && Holds(b, at, stride, k)
    {
      if b != a {
        var k: nat :| k < |src| && k in stored && Holds(b, at, stride, k);
        assert k in stored + {s};
      } else {
        assert s in stored + {s};
      }
    }
  }

  lemma {:induction false} ScalePlace(n: nat, stride: nat, at: nat, s: nat, length: nat)
    requires stride > 0 && at + n * stride < length + stride && s < n
    ensures 0 <= at + s * stride < length
  {
    Arith.MulMono(s + 1, n, stride);
    Arith.Distribute(s, 1, stride);
    Arith.MulMono(0, s, stride);
  }

  /** The two scales that a lane stores. */
  predicate Stores(lane: nat, s: nat) { s == lane || s == lane + LANES }

  /** The scales below n that the lanes below `lanes` store. */
  function StoredBy(n: nat, lanes: nat): set<nat>
  {
    set s: nat | s < n && SomeStores(lanes, s)
  }

  predicate SomeStores(lanes: nat, s: nat)
  {
    exists lane: nat :: lane < lanes && Stores(lane, s)
  }

  lemma {:induction false} StoredNext(n: nat, lane: nat)
    ensures StoredBy(n, lane + 1) == StoredBy(n, lane) + (set s: nat | s < n && Stores(lane, s))
  {
    assert forall s: nat :: SomeStores(lane + 1, s) <==> SomeStores(lane, s) || Stores(lane, s);
  }

  /** The 32 lanes store the scale s exactly when s is below 64. */
  lemma {:induction false} StoredBelow64(n: nat, s: nat)
    requires s < n
    ensures s in StoredBy(n, LANES) <==> s < 64
  {
    if s < 64 {
      assert Stores(s % LANES, s);
    }
  }

  /** The warp stores every scale exactly when the kernel's assertion on their number holds. */
  lemma {:induction false} AllStored(n: nat)
    ensures n <= 64 <==> forall s: nat :: s < n ==> s in StoredBy(n, LANES)
  {
    forall s: nat | s < n
      ensures s in StoredBy(n, LANES) <==> s < 64
    {
      StoredBelow64(n, s);
    }
    assert n > 64 ==> 64 !in StoredBy(n, LANES);
  }

  /** A warp stores the scales of one row: lane i those numbered i and i + 32. With at most 64 scales, the bound that
      the kernel asserts, each is at its place; the places of further ones keep what they held, and so does every
      word of another row. */
  method StoreTransposed(src: seq<real>, stride: nat, at: nat, dst: array<real>)
    requires stride > 0 && at + |src| * stride < dst.Length + stride
    modifies dst
    ensures Transposed(src, stride, at, StoredBy(|src|, LANES), old(dst[..]), dst[..])
    ensures forall s: nat :: s < |src| ==> ScaleAt(src, stride, at, s, old(dst[..]), dst[..])
  {
    for lane := 0 to LANES
      invariant Transposed(src, stride, at, StoredBy(|src|, lane), old(dst[..]), dst[..])
    {
      ghost var stored := StoredBy(|src|, lane);
      StoredNext(|src|, lane);
      stored := StoreScale(src, stride, at, lane, dst, old(dst[..]), stored);
      stored := StoreScale(src, stride, at, lane + 32, dst, old(dst[..]), stored);
      assert stored == StoredBy(|src|, lane + 1);
    }
    forall s: nat | s < |src|
      ensures ScaleAt(src, stride, at, s, old(dst[..]), dst[..])
    {
      ScalePlace(|src|, stride, at, s, dst.Length);
      StoredBelow64(|src|, s);
      PlaceOf(src, stride, at, StoredBy(|src|, LANES), old(dst[..]), dst[..], s);
    }
  }

  /** The place of scale s holds it, or what it held before if s is 64 or more. */
  ghost predicate ScaleAt(src: seq<real>, stride: nat, at: nat, s: nat, was: seq<real>, now: seq<real>)
    requires s < |src|
  {
    && 0 <= at + s * stride < |now| && |was| == |now|
    && now[at + s * stride] == if s < 64 then src[s] else was[at + s * stride]
  }

  lemma {:induction false} PlaceOf(src: seq<real>, stride: nat, at: nat, stored: set<nat>, was: seq<real>,
                              now: seq<real>, s: nat)
    requires stride > 0 && s < |src| && Transposed(src, stride, at, stored, was, now) && 0 <= at + s * stride < |now|
    requires s in stored <==> s < 64
    ensures ScaleAt(src, stride, at, s, was, now)
  {
    var a := at + s * stride;
    assert Holds(a, at, stride, s);
    if s >= 64 && now[a] != was[a] {
      var k: nat :| k < |src| && k in stored && Holds(a, at, stride, k);
      HoldsOne(a, at, stride, k, s);
    }
  }

  /** One predicated store of a lane. */
  method StoreScale(src: seq<real>, stride: nat, at: nat, s: nat, dst: array<real>, ghost was: seq<real>,
      ghost stored: set<nat>)
    returns (ghost stored': set<nat>)
    requires stride > 0 && at + |src| * stride < dst.Length + stride &&
        Transposed(src, stride, at, stored, was, dst[..])
    modifies dst
    ensures stored' == (if s < |src| then stored + {s} else stored) &&
        Transposed(src, stride, at, stored', was, dst[..])
  {
    stored' := stored;
    if s < |src| {
      ScalePlace(|src|, stride, at, s, dst.Length);
      StoreOne(src, stride, at, stored, was, dst[..], s, at + s * stride);
      ghost var now := dst[..];
      dst[at + s * stride] := src[s];
      assert dst[..] == now[at + s * stride := src[s]];
      stored' := stored + {s};
    }
  }

  /** The plane of a scale holds all rows of a local expert one after the other, and the planes follow each other. */
  lemma {:induction false} ScaleIndexSteps(numScales: nat, rows: nat, l: nat, row: nat, s: nat)
    ensures ScaleIndex(numScales, rows, l, row + 1, s) == ScaleIndex(numScales, rows, l, row, s) + 1
    ensures ScaleIndex(numScales, rows, l, row, s + 1) == ScaleIndex(numScales, rows, l, row, s) + rows
    ensures ScaleIndex(numScales, rows, l, 0, 0) == l * rows * numScales
  {
    Arith.Distribute(s, 1, rows);
    Arith.Associate(l, rows, numScales);
  }

  /** The store of one packed row into the tensor of all local experts: scale s of the row is at its index, and words
      that are no index of the row keep what they held. */
  method StoreRow(src: seq<real>, rows: nat, experts: nat, l: nat, row: nat, dst: array<real>)
    requires l < experts && row < rows && |src| <= 64 && dst.Length == experts * rows * |src|
    modifies dst
    ensures forall s: nat :: s < |src| ==> IndexHolds(src, rows, l, row, s, dst[..])
    ensures forall a: nat :: a < dst.Length && dst[a] != old(dst[a]) ==>
              exists s: nat :: s < |src| && a == ScaleIndex(|src|, rows, l, row, s)
  {
    if src != [] {
      RowFits(|src|, rows, experts, l, row);
      var at := l * rows * |src| + row;
      ghost var was := dst[..];
      StoreTransposed(src, rows, at, dst);
      RowPlaced(src, rows, at, l, row, was, dst[..]);
    }
  }

  ghost predicate IndexHolds(src: seq<real>, rows: nat, l: nat, row: nat, s: nat, now: seq<real>)
    requires s < |src|
  {
    ScaleIndex(|src|, rows, l, row, s) < |now| && now[ScaleIndex(|src|, rows, l, row, s)] == src[s]
  }

  lemma {:induction false} RowFits(n: nat, rows: nat, experts: nat, l: nat, row: nat)
    requires l < experts && row < rows && n > 0
    ensures 0 <= l * rows * n + row && l * rows * n + row + n * rows < experts * rows * n + rows
  {
    Arith.Associate(l, rows, n);
    Arith.Associate(experts, rows, n);
    Arith.MulMono(0, l, rows * n);
    Arith.MulMono(l + 1, experts, rows * n);
    Arith.Distribute(l, 1, rows * n);
  }

  lemma {:induction false} RowPlaced(src: seq<real>, rows: nat, at: nat, l: nat, row: nat,
                              was: seq<real>, now: seq<real>)
    requires |src| <= 64 && at == l * rows * |src| + row && |was| == |now|
    requires Transposed(src, rows, at, StoredBy(|src|, LANES), was, now)
    requires forall s: nat :: s < |src| ==> ScaleAt(src, rows, at, s, was, now)
    ensures forall s: nat :: s < |src| ==> IndexHolds(src, rows, l, row, s, now)
    ensures forall a: nat :: a < |now| && now[a] != was[a] ==>
              exists s: nat :: s < |src| && a == ScaleIndex(|src|, rows, l, row, s)
  {
    forall s: nat
      ensures ScaleIndex(|src|, rows, l, row, s) == at + s * rows
    {
      Arith.Associate(l, rows, |src|);
    }
    forall s: nat | s < |src|
      ensures IndexHolds(src, rows, l, row, s, now)
    {
      assert ScaleAt(src, rows, at, s, was, now);
    }
    forall a: nat | a < |now| && now[a] != was[a]
      ensures exists s: nat :: s < |src| && a == ScaleIndex(|src|, rows, l, row, s)
    {
      var s: nat :| s < |src| && s in StoredBy(|src|, LANES) && Holds(a, at, rows, s);
      assert a == ScaleIndex(|src|, rows, l, row, s);
    }
  }
}
