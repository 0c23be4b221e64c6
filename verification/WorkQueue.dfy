/** The send queue of one queue pair: a 16-bit head over a power-of-two ring, written by the device
    under a lock, refines an unbounded list of posted entries. */
module WorkQueue {
  import Arith
  import opened Pow2

  const HEAD_WRAP: nat := 0x1_0000              // uint16_t
  const WORD32: nat := 0x1_0000_0000            // uint32_t
  const BF_SIZE: nat := 256

  /** An entry: the head it was written at (its index field) and what it asks for. */
  datatype Wqe = Wqe(index: nat, request: int)

  /** x & mask, for a mask one below a power of two. */
  function Masked(x: nat, mask: nat): nat
  {
    x % (mask + 1)
  }

  // ---- sizing the ring ----

  /** The smallest power of two that is at least n; the doubling never overflows for an int. */
  method RoundUpPow2(n: nat) returns (pow2: nat)
    requires n <= 0x8000_0000
    ensures IsPow2(pow2) && n <= pow2 && pow2 < WORD32
    ensures forall p :: IsPow2(p) && n <= p ==> pow2 <= p
  {
    if n <= 1 {
      assert forall p :: IsPow2(p) ==> p >= 1;
      return 1;
    }
    pow2 := 1;
    while pow2 < n
      invariant IsPow2(pow2) && pow2 < 2 * n && pow2 < WORD32
      invariant forall p :: IsPow2(p) && n <= p ==> pow2 <= p
      decreases n - pow2
    {
      forall p | IsPow2(p) && n <= p
        ensures 2 * pow2 <= p
      {
        Pow2Gap(pow2, p);
      }
      HalfBound(pow2, n);
      pow2 := (pow2 * 2) % WORD32;
    }
  }

  lemma {:induction false} HalfBound(p: nat, n: nat)
    requires IsPow2(p) && p < n <= 0x8000_0000
    ensures 2 * p < WORD32 && (p * 2) % WORD32 == 2 * p && IsPow2(2 * p)
  {
    assert (2 * p) / 2 == p;
  }

  // ---- head arithmetic ----

  /** Taking the head modulo 2^16 first does not change the slot of a ring that divides 2^16. */
  lemma {:induction false} SlotOfHead(n: nat, ring: nat)
    requires ring > 0 && HEAD_WRAP % ring == 0
    ensures (n % HEAD_WRAP) % ring == n % ring
  {
    var q, m := n / HEAD_WRAP, n % HEAD_WRAP;
    var w := HEAD_WRAP / ring;
    assert HEAD_WRAP == w * ring;
    assert n == q * HEAD_WRAP + m;
    assert m == (m / ring) * ring + m % ring;
    calc {
      n;
      q * (w * ring) + (m / ring) * ring + m % ring;
      { Arith.Associate(q, w, ring); Arith.Distribute(q * w, m / ring, ring); }
      (q * w + m / ring) * ring + m % ring;
    }
    assert q * w >= 0 by { Arith.MulMono(0, q, w); }
    Arith.DivModUnique(n, ring, q * w + m / ring, m % ring);
  }

  /** For a power-of-two ring the slot follows the unbounded count exactly when the ring has at most
      2^16 entries. */
  lemma {:induction false} RingMustDivideHead(ring: nat)
    requires IsPow2(ring)
    ensures (forall n: nat :: (n % 0x1_0000) % ring == n % ring) <==> ring <= 0x1_0000
  {
    if ring <= HEAD_WRAP {
      HeadIsPow2();
      Pow2Divides(ring, HEAD_WRAP);
      forall n: nat
        ensures (n % HEAD_WRAP) % ring == n % ring
      {
        SlotOfHead(n, ring);
      }
    } else {
      assert HEAD_WRAP % HEAD_WRAP == 0;
      Arith.DivModUnique(HEAD_WRAP, ring, 0, HEAD_WRAP);
      assert (HEAD_WRAP % HEAD_WRAP) % ring != HEAD_WRAP % ring;
    }
  }

  lemma {:induction false} HeadIsPow2()
    ensures IsPow2(HEAD_WRAP)
  {
    assert IsPow2(0x100);
  }

  /** Posts less than a ring apart use different slots. */
  lemma {:induction false} WindowDistinct(m: nat, n: nat, ring: nat)
    requires ring > 0 && m < n < m + ring
    ensures m % ring != n % ring
  {
    var p, q := m / ring, n / ring;
    assert m == p * ring + m % ring && n == q * ring + n % ring;
    if m % ring == n % ring {
      assert (q - p) * ring == n - m;
      Arith.SmallMultiple(q - p, ring);
    }
  }

  /** The ring holds the last |ring| entries posted, each at its count modulo the ring size. */
  ghost predicate Window(ring: seq<Wqe>, posted: seq<Wqe>)
    requires |ring| > 0
  {
    forall i :: 0 <= i < |posted| && |posted| - |ring| <= i ==> ring[i % |ring|] == posted[i]
  }

  lemma {:induction false} WindowSlides(ring: seq<Wqe>, posted: seq<Wqe>, w: Wqe)
    requires |ring| > 0 && Window(ring, posted)
    ensures Window(ring[|posted| % |ring| := w], posted + [w])
  {
    var n, size := |posted|, |ring|;
    forall i | 0 <= i < n + 1 && n + 1 - size <= i
      ensures ring[n % size := w][i % size] == (posted + [w])[i]
    {
      if i < n {
        WindowDistinct(i, n, size);
      }
    }
  }

  // ---- the queue ----

  class SendQueue {
    const ring: array<Wqe>          // wq, num_wqebb entries
    const mask: nat                 // wqeid_mask
    var head: nat                   // wq_head
    var bfOffset: nat
    var sendCounter: nat            // doorbell record
    var bell: Wqe                   // what the last doorbell write named
    ghost var posted: seq<Wqe>      // everything ever posted

    /** The ring holds the last ring-size entries posted, and every register follows the count. */
    ghost predicate Valid()
      reads this, ring
    {
      && IsPow2(ring.Length) && ring.Length <= HEAD_WRAP
      && mask == ring.Length - 1
      && head == |posted| % HEAD_WRAP
      && bfOffset == 256 * (|posted| % 2)
      && Window(ring[..], posted)
    }

    constructor (size: nat)
      requires IsPow2(size) && size <= HEAD_WRAP
      ensures Valid() && posted == [] && ring.Length == size && fresh(ring)
    {
      ring := new Wqe[size](i => Wqe(0, 0));
      mask := size - 1;
      head := 0;
      bfOffset := 0;
      sendCounter := 0;
      bell := Wqe(0, 0);
      posted := [];
    }

    /** Write the entry at the head, advance, ring the doorbell. */
    method Post(request: int)
      requires Valid()
      modifies this, ring
      ensures Valid()
      ensures posted == old(posted) + [Wqe(|old(posted)| % 0x1_0000, request)]
      ensures ring[|old(posted)| % ring.Length] == posted[|posted| - 1]
      ensures bell == posted[|posted| - 1]
      ensures sendCounter == |posted| % 0x1_0000 && bfOffset == 256 * (|posted| % 2)
    {
      ghost var n := |posted|;
      ghost var before := ring[..];
      PostIndices(n, ring.Length);
      BlueFlameToggles(n);
      var w := Wqe(head, request);
      WindowSlides(before, posted, w);
      var slot := Masked(head, mask);
      ring[slot] := w;
      assert ring[..] == before[slot := w];
      posted := posted + [w];
      head := (head + 1) % HEAD_WRAP;
      sendCounter := head;
      bell := ring[Masked((head + WORD32 - 1) % WORD32, mask)];
      bfOffset := if bfOffset == 0 then BF_SIZE else bfOffset - BF_SIZE;
    }
  }

  /** The two halves of the doorbell page take turns. */
  lemma {:induction false} BlueFlameToggles(n: nat)
    ensures BF_SIZE * ((n + 1) % 2) == if BF_SIZE * (n % 2) == 0 then BF_SIZE else BF_SIZE * (n % 2) - BF_SIZE
  {
  }

  /** The indices of post number n. */
  lemma {:induction false} PostIndices(n: nat, size: nat)
    requires IsPow2(size) && size <= HEAD_WRAP
    ensures Masked(n % HEAD_WRAP, size - 1) == n % size < size
    ensures (n % HEAD_WRAP + 1) % HEAD_WRAP == (n + 1) % HEAD_WRAP
    ensures Masked(((n + 1) % HEAD_WRAP + WORD32 - 1) % WORD32, size - 1) == n % size
  {
    HeadIsPow2();
    Pow2Divides(size, HEAD_WRAP);
    SlotOfHead(n, size);
    NextHead(n, size);
  }

  /** The doorbell finds the entry just written, also when the head has just wrapped to zero. */
  lemma {:induction false} NextHead(n: nat, ring: nat)
    requires ring > 0 && HEAD_WRAP % ring == 0
    ensures (n % HEAD_WRAP + 1) % HEAD_WRAP == (n + 1) % HEAD_WRAP
    ensures (((n + 1) % HEAD_WRAP + WORD32 - 1) % WORD32) % ring == n % ring
  {
    var h := (n + 1) % HEAD_WRAP;
    var back := (h + WORD32 - 1) % WORD32;
    if h == 0 {
      assert back == 0xFFFF * HEAD_WRAP + 0xFFFF;
      assert n % HEAD_WRAP == 0xFFFF;
      SlotOfHead(back, ring);
      assert back % HEAD_WRAP == 0xFFFF;
    } else {
      assert back == n % HEAD_WRAP;
    }
    SlotOfHead(n, ring);
  }

  // ---- polling for completions ----

  datatype Cqe = Cqe(counter: nat, opcode: nat)

  datatype PollResult = Done(tail: nat, loads: nat) | Trapped | Spinning

  /** (int16_t)(a - b) for 16-bit values. */
  function Signed16(a: nat, b: nat): int
    requires a < HEAD_WRAP && b < HEAD_WRAP
  {
    var d := a - b;
    if d >= 0x8000 then d - HEAD_WRAP else if d < -0x8000 then d + HEAD_WRAP else d
  }

  /** Spin on the collapsed completion entry; `seen` lists what the successive loads return. */
  method PollCq(tail: nat, awaited: nat, seen: seq<Cqe>) returns (result: PollResult)
    requires tail < HEAD_WRAP && awaited < HEAD_WRAP
    ensures result == PollSpec(tail, awaited, seen)
  {
    var current: nat := tail;
    var i: nat := 0;
    while Signed16(current, awaited) <= 0
      invariant 0 <= i <= |seen| && current < HEAD_WRAP
      invariant PollSpec(tail, awaited, seen) == AddReads(PollSpec(current, awaited, seen[i..]), i)
      decreases |seen| - i
    {
      if i == |seen| {
        return Spinning;
      }
      if seen[i].opcode != 0x0 && seen[i].opcode != 0xF {
        return Trapped;
      }
      current := (seen[i].counter + 1) % HEAD_WRAP;
      assert seen[i..][1..] == seen[i + 1..];
      i := i + 1;
    }
    return Done(current, i);
  }

  function AddReads(r: PollResult, n: nat): PollResult
  {
    match r
    case Done(tail, loads) => Done(tail, loads + n)
    case Trapped => Trapped
    case Spinning => Spinning
  }

  function PollSpec(tail: nat, awaited: nat, seen: seq<Cqe>): PollResult
    requires tail < HEAD_WRAP && awaited < HEAD_WRAP
    decreases |seen|
  {
    if Signed16(tail, awaited) > 0 then Done(tail, 0)
    else if seen == [] then Spinning
    else if seen[0].opcode != 0x0 && seen[0].opcode != 0xF then Trapped
    else AddReads(PollSpec((seen[0].counter + 1) % HEAD_WRAP, awaited, seen[1..]), 1)
  }

  /** Load i is the first whose opcode is neither a completion (0x0) nor an invalid entry (0xF), and no load before it
      ends the wait. */
  predicate TrapsAt(tail: nat, awaited: nat, seen: seq<Cqe>, i: nat)
    requires tail < HEAD_WRAP && awaited < HEAD_WRAP
  {
    && i < |seen| && seen[i].opcode != 0x0 && seen[i].opcode != 0xF && Signed16(tail, awaited) <= 0
    && (forall j :: 0 <= j < i ==> (seen[j].opcode == 0x0 || seen[j].opcode == 0xF))
    && (forall j :: 0 <= j < i ==> Signed16((seen[j].counter + 1) % HEAD_WRAP, awaited) <= 0)
  }

  /** The poll traps exactly when a load before its exit shows another opcode. */
  lemma {:induction false} PollTraps(tail: nat, awaited: nat, seen: seq<Cqe>)
    requires tail < HEAD_WRAP && awaited < HEAD_WRAP
    ensures PollSpec(tail, awaited, seen) == Trapped <==> exists i: nat :: TrapsAt(tail, awaited, seen, i)
    decreases |seen|
  {
    if Signed16(tail, awaited) <= 0 && seen != [] {
      var next := (seen[0].counter + 1) % HEAD_WRAP;
      if seen[0].opcode != 0x0 && seen[0].opcode != 0xF {
        assert TrapsAt(tail, awaited, seen, 0);
      } else {
        PollTraps(next, awaited, seen[1..]);
        if i: nat :| TrapsAt(next, awaited, seen[1..], i) {
          TrapShifts(tail, awaited, seen, i);
        }
        if i: nat :| TrapsAt(tail, awaited, seen, i) {
          TrapUnshifts(tail, awaited, seen, i);
        }
      }
    }
  }

  lemma {:induction false} TrapShifts(tail: nat, awaited: nat, seen: seq<Cqe>, i: nat)
    requires tail < HEAD_WRAP && awaited < HEAD_WRAP && Signed16(tail, awaited) <= 0 && seen != []
    requires seen[0].opcode == 0x0 || seen[0].opcode == 0xF
    requires TrapsAt((seen[0].counter + 1) % HEAD_WRAP, awaited, seen[1..], i)
    ensures TrapsAt(tail, awaited, seen, i + 1)
  {
    forall j | 0 <= j < i + 1
      ensures seen[j].opcode == 0x0 || seen[j].opcode == 0xF
      ensures Signed16((seen[j].counter + 1) % HEAD_WRAP, awaited) <= 0
    {
      assert j > 0 ==> seen[j] == seen[1..][j - 1];
    }
  }

  lemma {:induction false} TrapUnshifts(tail: nat, awaited: nat, seen: seq<Cqe>, i: nat)
    requires tail < HEAD_WRAP && awaited < HEAD_WRAP && seen != [] && TrapsAt(tail, awaited, seen, i)
    requires seen[0].opcode == 0x0 || seen[0].opcode == 0xF
    ensures i > 0 && TrapsAt((seen[0].counter + 1) % HEAD_WRAP, awaited, seen[1..], i - 1)
  {
    forall j | 0 <= j < i - 1
      ensures seen[1..][j].opcode == 0x0 || seen[1..][j].opcode == 0xF
      ensures Signed16((seen[1..][j].counter + 1) % HEAD_WRAP, awaited) <= 0
    {
      assert seen[1..][j] == seen[j + 1];
    }
  }

  /** The entry the hardware shows after c completions; with none it is all ones. */
  function CqeAfter(c: nat): Cqe
  {
    Cqe((c + HEAD_WRAP - 1) % HEAD_WRAP, if c == 0 then 0xF else 0x0)
  }

  predicate Near(a: nat, b: nat)
  {
    -0x8000 < a - b < 0x8000
  }

  /** The wrapped comparison decides the unbounded one. */
  lemma {:induction false} WrappedCompare(c: nat, e: nat)
    requires Near(c, e)
    ensures Signed16(c % HEAD_WRAP, e % HEAD_WRAP) == c - e
  {
    assert c == c / HEAD_WRAP * HEAD_WRAP + c % HEAD_WRAP && e == e / HEAD_WRAP * HEAD_WRAP + e % HEAD_WRAP;
  }

  /** What one turn of the loop loads: the counter after c completions, then the opcode, by which time there may be
      d completions. */
  function Loaded(c: nat, d: nat): Cqe { Cqe(CqeAfter(c).counter, CqeAfter(d).opcode) }

  function Shown(counts: seq<nat>, later: seq<nat>): seq<Cqe>
    requires |later| == |counts|
  {
    seq(|counts|, i requires 0 <= i < |counts| => Loaded(counts[i], later[i]))
  }

  /** The poll stopped at the first count above e and left exactly that count, modulo 2^16; or it
      is still spinning and no count has passed e. */
  ghost predicate Exact(all: seq<nat>, e: nat, result: PollResult)
  {
    if result.Done? then
      && result.loads < |all| && result.tail == all[result.loads] % HEAD_WRAP
      && all[result.loads] > e && (forall i :: 0 <= i < result.loads ==> all[i] <= e)
    else
      result.Spinning? && forall i :: 0 <= i < |all| ==> all[i] <= e
  }

  lemma {:induction false} ExactShift(first: nat, rest: seq<nat>, e: nat, result: PollResult)
    requires first <= e && Exact(rest, e, result)
    ensures Exact([first] + rest, e, AddReads(result, 1))
  {
  }

  /** One more load: an entry that does not end the wait is counted and the next one decides. */
  lemma {:induction false} PollNext(tail: nat, awaited: nat, first: Cqe, rest: seq<Cqe>, next: nat)
    requires tail < HEAD_WRAP && awaited < HEAD_WRAP && Signed16(tail, awaited) <= 0
    requires (first.opcode == 0x0 || first.opcode == 0xF) && next == (first.counter + 1) % HEAD_WRAP
    ensures PollSpec(tail, awaited, [first] + rest) == AddReads(PollSpec(next, awaited, rest), 1)
  {
    assert ([first] + rest)[1..] == rest;
  }

  lemma {:induction false} PollStep(tail: nat, awaited: nat, c: nat, rest: seq<nat>, d: nat, later: seq<nat>)
    requires tail < HEAD_WRAP && awaited < HEAD_WRAP && Signed16(tail, awaited) <= 0 && |later| == |rest|
    ensures PollSpec(tail, awaited, Shown([c] + rest, [d] + later)) ==
            AddReads(PollSpec(c % HEAD_WRAP, awaited, Shown(rest, later)), 1)
  {
    CounterRoundTrip(c);
    PollNext(tail, awaited, Loaded(c, d), Shown(rest, later), c % HEAD_WRAP);
    assert Shown([c] + rest, [d] + later) == [Loaded(c, d)] + Shown(rest, later);
  }

  /** With completion counts read in turn, all less than 2^15 from the awaited index e, the loop exits exactly when
      the count exceeds e, whatever completions arrive between the two loads of a turn. */
  lemma {:induction false} PollIsExact(start: nat, e: nat, counts: seq<nat>, later: seq<nat>)
    requires Near(start, e) && |later| == |counts| && forall i :: 0 <= i < |counts| ==> Near(counts[i], e)
    ensures Exact([start] + counts, e, PollSpec(start % HEAD_WRAP, e % HEAD_WRAP, Shown(counts, later)))
    decreases |counts|
  {
    WrappedCompare(start, e);
    if start <= e && counts != [] {
      var c, rest, d, after := counts[0], counts[1..], later[0], later[1..];
      assert counts == [c] + rest && later == [d] + after;
      PollIsExact(c, e, rest, after);
      PollStep(start % HEAD_WRAP, e % HEAD_WRAP, c, rest, d, after);
      ExactShift(start, counts, e, PollSpec(c % HEAD_WRAP, e % HEAD_WRAP, Shown(rest, after)));
    }
  }

  /** The entry counts from zero, so the tail is one past it; all ones reads as no completion. */
  lemma {:induction false} CounterRoundTrip(c: nat)
    ensures (CqeAfter(c).counter + 1) % 0x1_0000 == c % 0x1_0000
    ensures CqeAfter(0) == Cqe(0xFFFF, 0xF)
  {
  }
}
