/** Creating all queue pairs and recreating them: the loops of init_ibgda and update_local_qpns. A fully successful
    update brings back the same queue pairs at the same offsets on the same heap. */
module QpUpdate {
  import Sets
  import opened MemHeap
  import opened HeapPartition
  import opened HeapReplay
  import opened QpLifecycle

  /** The queue pairs created so far, and whether all creations have succeeded. */
  datatype Batch = Batch(heap: Heap, qps: seq<Qp>, ok: bool)

  /** The batch after one more creation came to r, unless an earlier one has failed. */
  function Add(b: Batch, r: Made<Qp>): Batch
  {
    if !b.ok then b
    else if r.made.None? then Batch(r.heap, b.qps, false)
    else Batch(r.heap, b.qps + [r.made.value], true)
  }

  function Extend(b: Batch, fault: Fault): Batch
  {
    Add(b, CreateQp(b.heap, QUEUE_BYTES, fault))
  }

  /** One creation for each entry of `faults`, stopping at the first that fails. */
  function CreateAll(h: Heap, faults: seq<Fault>): Batch
  {
    if faults == [] then Batch(h, [], true)
    else Extend(CreateAll(h, faults[..|faults| - 1]), faults[|faults| - 1])
  }

  function DestroyAll(h: Heap, qps: seq<Qp>): Heap
  {
    if qps == [] then h else DestroyQp(DestroyAll(h, qps[..|qps| - 1]), qps[|qps| - 1])
  }

  function NoFaults(n: nat): seq<Fault> { seq(n, i => NoFault) }

  /** One update: destroy all in index order, create as many. */
  function Update(b: Batch): Batch
  {
    CreateAll(DestroyAll(b.heap, b.qps), NoFaults(|b.qps|))
  }

  function Iterate<T>(f: T -> T, x: T, times: nat): T
  {
    if times == 0 then x else f(Iterate(f, x, times - 1))
  }

  /** Any number of updates in which every creation succeeds as far as foreign calls go. */
  function Updates(b: Batch, times: nat): Batch
  {
    Iterate(Update, b, times)
  }

  // ---- in place ----

  method CreateQps(heap: Allocator, faults: seq<Fault>) returns (qps: seq<Qp>, ok: bool)
    requires heap.Valid()
    modifies heap, heap.allocs
    ensures heap.Valid() && Batch(heap.Value(), qps, ok) == CreateAll(old(heap.Value()), faults)
  {
    qps, ok := [], true;
    for i := 0 to |faults|
      invariant heap.Valid() && ok && Batch(heap.Value(), qps, ok) == CreateAll(old(heap.Value()), faults[..i])
    {
      assert faults[..i + 1][..i] == faults[..i];
      var qp := CreateQpInPlace(heap, QUEUE_BYTES, faults[i]);
      if qp.None? {
        FailureStays(old(heap.Value()), faults, i + 1);
        return qps, false;
      }
      qps := qps + [qp.value];
    }
    assert faults[..|faults|] == faults;
  }

  lemma {:induction false} FailureStays(h: Heap, faults: seq<Fault>, i: nat)
    requires i <= |faults| && !CreateAll(h, faults[..i]).ok
    ensures CreateAll(h, faults) == CreateAll(h, faults[..i])
    decreases |faults|
  {
    if i < |faults| {
      var front := faults[..|faults| - 1];
      assert front[..i] == faults[..i];
      FailureStays(h, front, i);
    } else {
      assert faults[..i] == faults;
    }
  }

  method UpdateLocalQpns(heap: Allocator, qps: seq<Qp>, faults: seq<Fault>) returns (qps': seq<Qp>, ok: bool)
    requires heap.Valid() && |faults| == |qps|
    modifies heap, heap.allocs
    ensures heap.Valid()
    ensures Batch(heap.Value(), qps', ok) == CreateAll(DestroyAll(old(heap.Value()), qps), faults)
  {
    for i := 0 to |qps|
      invariant heap.Valid() && heap.Value() == DestroyAll(old(heap.Value()), qps[..i])
    {
      assert qps[..i + 1][..i] == qps[..i];
      DestroyQpInPlace(heap, qps[i]);
    }
    assert qps[..|qps|] == qps;
    qps', ok := CreateQps(heap, faults);
  }

  /** The creations one by one: heaps[i] is the heap before creation i. All but the last of a failed batch made the
      queue pairs of the list, in order; the batch is good exactly when all did. */
  ghost predicate Created(create: (Heap, Fault) -> Made<Qp>, h: Heap, faults: seq<Fault>, b: Batch, heaps: seq<Heap>)
  {
    && |heaps| == |b.qps| + 1 && |b.qps| <= |faults| && heaps[0] == h
    && (forall i :: 0 <= i < |b.qps| ==> create(heaps[i], faults[i]) == Made(heaps[i + 1], Some(b.qps[i])))
    && (if b.ok then |b.qps| == |faults| && b.heap == heaps[|b.qps|]
        else |b.qps| < |faults| && create(heaps[|b.qps|], faults[|b.qps|]) == Made(b.heap, None))
  }

  lemma {:induction false} AddCreated(create: (Heap, Fault) -> Made<Qp>, h: Heap, faults: seq<Fault>, b: Batch,
                               heaps: seq<Heap>, fault: Fault) returns (heaps': seq<Heap>)
    requires Created(create, h, faults, b, heaps)
    ensures Created(create, h, faults + [fault], Add(b, create(b.heap, fault)), heaps')
  {
    var r := create(b.heap, fault);
    heaps' := if b.ok && r.made.Some? then heaps + [r.heap] else heaps;
  }

  /** What the creation loop leaves, whatever fails: with queues of 16384 entries of 64 bytes, every queue pair of the
      list was made by its creation, in order, on the heap that the one before left; all succeeded exactly when ok
      holds, and otherwise the first failure is the creation after the last of the list. */
  lemma {:induction false} CreateAllCreates(h: Heap, faults: seq<Fault>) returns (heaps: seq<Heap>)
    ensures Created((g, fault) => CreateQp(g, 1048576, fault), h, faults, CreateAll(h, faults), heaps)
  {
    var create := (g, fault) => CreateQp(g, 1048576, fault);
    if faults == [] {
      heaps := [h];
    } else {
      var front, fault := faults[..|faults| - 1], faults[|faults| - 1];
      var before := CreateAllCreates(h, front);
      heaps := AddCreated(create, h, front, CreateAll(h, front), before, fault);
      assert faults == front + [fault];
    }
  }

  // ---- offsets ----

  /** The four offsets of a queue pair, in the order in which they are allocated and freed. */
  function OffsetsOf(qp: Qp): seq<nat>
  {
    [qp.cq.entries, qp.cq.dbr, qp.wq, qp.dbr]
  }

  function AllOffsets(qps: seq<Qp>): seq<nat>
  {
    if qps == [] then [] else AllOffsets(qps[..|qps| - 1]) + OffsetsOf(qps[|qps| - 1])
  }

  /** The offsets that a successful sequence of requests gets. */
  function Granted(h: Heap, reqs: seq<Request>): seq<nat>
    requires AllSucceed(h, reqs)
  {
    seq(|reqs|, i requires 0 <= i < |reqs| => OutcomeOf(h, reqs, i).offset)
  }

  lemma {:induction false} GrantedSnoc(h: Heap, reqs: seq<Request>, q: Request)
    requires AllSucceed(h, reqs + [q])
    ensures AllSucceed(h, reqs) && Take(TakeAll(h, reqs), q.size, q.align).outcome.At?
    ensures Granted(h, reqs + [q]) == Granted(h, reqs) + [Take(TakeAll(h, reqs), q.size, q.align).outcome.offset]
  {
    TakeSnoc(h, reqs, q);
    var all := reqs + [q];
    forall i | 0 <= i < |reqs|
      ensures OutcomeOf(h, all, i) == OutcomeOf(h, reqs, i)
    {
      assert all[..i] == reqs[..i];
    }
    assert all[..|reqs|] == reqs;
  }

  lemma {:induction false} GrantedTwo(h: Heap, reqs: seq<Request>, x: Request, y: Request,
                               a: Allocation, b: Allocation)
    requires AllSucceed(h, reqs + [x, y])
    requires a == Take(TakeAll(h, reqs), x.size, x.align) && b == Take(a.heap, y.size, y.align)
    ensures AllSucceed(h, reqs) && a.outcome.At? && b.outcome.At? && TakeAll(h, reqs + [x, y]) == b.heap
    ensures Granted(h, reqs + [x, y]) == Granted(h, reqs) + [a.outcome.offset, b.outcome.offset]
  {
    assert reqs + [x, y] == reqs + [x] + [y];
    TwoTakes(h, reqs, x, y, a, b);
    GrantedSnoc(h, reqs + [x], y);
    GrantedSnoc(h, reqs, x);
    TakeSnoc(h, reqs, x);
  }

  /** One more queue pair gets the offsets of its four requests. */
  lemma {:induction false} GrantedQp(h: Heap, reqs: seq<Request>)
    requires AllSucceed(h, reqs + OneQp())
    ensures AllSucceed(h, reqs)
    ensures var r := CreateQp(TakeAll(h, reqs), QUEUE_BYTES, NoFault);
      && r.made.Some? && r.heap == TakeAll(h, reqs + OneQp())
      && Granted(h, reqs + OneQp()) == Granted(h, reqs) + OffsetsOf(r.made.value)
  {
    var q, now := OneQp(), TakeAll(h, reqs);
    var a := TakePage(now, QUEUE_BYTES);
    var b := TakeDbr(a.heap);
    var d := TakePage(b.heap, QUEUE_BYTES);
    var e := TakeDbr(d.heap);
    assert reqs + q == reqs + [q[0], q[1]] + [q[2], q[3]];
    PrefixSucceeds(h, reqs + [q[0], q[1]], [q[2], q[3]]);
    GrantedTwo(h, reqs, q[0], q[1], a, b);
    GrantedTwo(h, reqs + [q[0], q[1]], q[2], q[3], d, e);
    CreateOffsets(now, a, b, d, e);
  }

  lemma {:induction false} CreateOffsets(h: Heap, a: Allocation, b: Allocation, d: Allocation, e: Allocation)
    requires a == TakePage(h, QUEUE_BYTES) && b == TakeDbr(a.heap)
    requires d == TakePage(b.heap, QUEUE_BYTES) && e == TakeDbr(d.heap)
    requires a.outcome.At? && b.outcome.At? && d.outcome.At? && e.outcome.At?
    ensures var r := CreateQp(h, QUEUE_BYTES, NoFault);
      && r.made.Some? && r.heap == e.heap
      && OffsetsOf(r.made.value) == [a.outcome.offset, b.outcome.offset] + [d.outcome.offset, e.outcome.offset]
  {
    CreateIsTakes(h, QUEUE_BYTES, a, b, d, e);
  }

  lemma {:induction false} ExtendOk(b: Batch, r: Made<Qp>)
    requires b.ok && r == CreateQp(b.heap, QUEUE_BYTES, NoFault) && r.made.Some?
    ensures Extend(b, NoFault) == Batch(r.heap, b.qps + [r.made.value], true)
    ensures AllOffsets(b.qps + [r.made.value]) == AllOffsets(b.qps) + OffsetsOf(r.made.value)
  {
    assert (b.qps + [r.made.value])[..|b.qps|] == b.qps;
  }

  lemma {:induction false} CreateAllNext(h: Heap, n: nat)
    ensures CreateAll(h, NoFaults(n + 1)) == Extend(CreateAll(h, NoFaults(n)), NoFault)
  {
    assert NoFaults(n + 1)[..n] == NoFaults(n);
  }

  /** The batch holds n queue pairs, made by their requests in order, with the offsets those got. */
  ghost predicate Served(h: Heap, n: nat, b: Batch)
  {
    && AllSucceed(h, QpRequests(n))
    && b.ok && |b.qps| == n && b.heap == TakeAll(h, QpRequests(n)) && AllOffsets(b.qps) == Granted(h, QpRequests(n))
  }

  lemma {:induction false} ServedNext(h: Heap, n: nat, b: Batch)
    requires AllSucceed(h, QpRequests(n) + OneQp()) && Served(h, n, b)
    ensures Served(h, n + 1, Extend(b, NoFault))
  {
    GrantedQp(h, QpRequests(n));
    ExtendOk(b, CreateQp(TakeAll(h, QpRequests(n)), QUEUE_BYTES, NoFault));
  }

  lemma {:induction false} ServedNone(h: Heap)
    ensures Served(h, 0, CreateAll(h, NoFaults(0)))
  {
  }

  lemma {:induction false} PrefixSucceeds(h: Heap, reqs: seq<Request>, more: seq<Request>)
    requires AllSucceed(h, reqs + more)
    ensures AllSucceed(h, reqs)
  {
    forall i | 0 <= i < |reqs|
      ensures OutcomeOf(h, reqs, i).At?
    {
      assert (reqs + more)[..i] == reqs[..i];
      assert OutcomeOf(h, reqs + more, i).At?;
    }
  }

  lemma {:induction false} CreateAllStep(h: Heap, n: nat, b: Batch, b': Batch)
    requires AllSucceed(h, QpRequests(n + 1)) && Served(h, n, b) && b' == Extend(b, NoFault)
    ensures Served(h, n + 1, b')
  {
    assert QpRequests(n + 1) == QpRequests(n) + OneQp();
    ServedNext(h, n, b);
  }

  lemma {:induction false} FewerSucceed(h: Heap, n: nat)
    requires AllSucceed(h, QpRequests(n + 1))
    ensures AllSucceed(h, QpRequests(n))
  {
    assert QpRequests(n + 1) == QpRequests(n) + OneQp();
    PrefixSucceeds(h, QpRequests(n), OneQp());
  }

  /** Creating n queue pairs makes their requests in order and gets their offsets. */
  lemma {:induction false} CreateAllIs(h: Heap, n: nat)
    requires AllSucceed(h, QpRequests(n))
    ensures Served(h, n, CreateAll(h, NoFaults(n)))
  {
    if n == 0 {
      ServedNone(h);
    } else {
      FewerSucceed(h, n - 1);
      CreateAllIs(h, n - 1);
      CreateAllNext(h, n - 1);
      CreateAllStep(h, n - 1, CreateAll(h, NoFaults(n - 1)), CreateAll(h, NoFaults(n)));
    }
  }

  lemma {:induction false} ReleaseTwo(h: Heap, offsets: seq<nat>, x: nat, y: nat)
    ensures ReleaseAll(h, offsets + [x, y]) == Release(Release(ReleaseAll(h, offsets), x), y)
  {
    Sets.FoldTwo(Release, h, offsets, x, y);
  }

  lemma {:induction false} ReleaseQp(h: Heap, offsets: seq<nat>, qp: Qp)
    ensures ReleaseAll(h, offsets + OffsetsOf(qp)) == DestroyQp(ReleaseAll(h, offsets), qp)
  {
    ReleaseTwo(h, offsets, qp.cq.entries, qp.cq.dbr);
    ReleaseTwo(h, offsets + [qp.cq.entries, qp.cq.dbr], qp.wq, qp.dbr);
    assert offsets + OffsetsOf(qp) == offsets + [qp.cq.entries, qp.cq.dbr] + [qp.wq, qp.dbr];
  }

  /** Destroying them in index order frees those offsets in order. */
  lemma {:induction false} DestroyAllIs(h: Heap, qps: seq<Qp>)
    ensures DestroyAll(h, qps) == ReleaseAll(h, AllOffsets(qps))
  {
    if qps != [] {
      var front, qp := qps[..|qps| - 1], qps[|qps| - 1];
      DestroyAllIs(h, front);
      ReleaseQp(h, AllOffsets(front), qp);
    }
  }

  lemma {:induction false} OffsetsDetermine(a: seq<Qp>, b: seq<Qp>)
    requires |a| == |b| && AllOffsets(a) == AllOffsets(b)
    ensures a == b
  {
    if a != [] {
      var n := |a| - 1;
      AllOffsetsLength(a[..n]);
      AllOffsetsLength(b[..n]);
      SplitEqual(AllOffsets(a[..n]), OffsetsOf(a[n]), AllOffsets(b[..n]), OffsetsOf(b[n]));
      OffsetsDetermine(a[..n], b[..n]);
      OneOffsets(a[n], b[n]);
      assert a == a[..n] + [a[n]] && b == b[..n] + [b[n]];
    }
  }

  lemma {:induction false} SplitEqual(x: seq<nat>, x': seq<nat>, y: seq<nat>, y': seq<nat>)
    requires |x| == |y| && x + x' == y + y'
    ensures x == y && x' == y'
  {
    assert x == (x + x')[..|x|] && y == (y + y')[..|x|];
    assert x' == (x + x')[|x|..] && y' == (y + y')[|x|..];
  }

  lemma {:induction false} OneOffsets(a: Qp, b: Qp)
    requires OffsetsOf(a) == OffsetsOf(b)
    ensures a == b
  {
    var x, y := OffsetsOf(a), OffsetsOf(b);
    assert x[0] == y[0] && x[1] == y[1] && x[2] == y[2] && x[3] == y[3];
  }

  lemma {:induction false} AllOffsetsLength(qps: seq<Qp>)
    ensures |AllOffsets(qps)| == 4 * |qps|
  {
    if qps != [] {
      AllOffsetsLength(qps[..|qps| - 1]);
    }
  }

  // ---- the update ----

  /** On a new heap the granted offsets are those of the table, entry by entry. */
  lemma {:induction false} GrantedAreBlocks(size: nat, reqs: seq<Request>, order: seq<nat>)
    requires Sane(size, reqs) && AllSucceed(Create(size), reqs)
    requires order == seq(|reqs|, i => i)
    ensures var h := TakeAll(Create(size), reqs);
      |h.blocks| == |reqs| && IsOrder(order, |reqs|) && Offsets(h.blocks, order) == Granted(Create(size), reqs)
  {
    LaysOut(size, reqs);
  }

  lemma {:induction false} SameGrants(h: Heap, g: Heap, reqs: seq<Request>)
    requires AllSucceed(h, reqs) && forall i :: 0 <= i < |reqs| ==> OutcomeOf(g, reqs, i) == OutcomeOf(h, reqs, i)
    ensures AllSucceed(g, reqs) && Granted(g, reqs) == Granted(h, reqs)
  {
  }

  /** The n queue pairs are all there, and an update brings the same ones back. */
  ghost predicate Restored(b: Batch, n: nat)
  {
    b.ok && |b.qps| == n && Update(b) == b
  }

  lemma {:induction false} IterateFixed<T>(f: T -> T, x: T, times: nat)
    requires f(x) == x
    ensures Iterate(f, x, times) == x
  {
    if times > 0 {
      IterateFixed(f, x, times - 1);
    }
  }

  /** An update of the queue pairs of a new heap brings them back. */
  lemma {:induction false} UpdateOnce(n: nat)
    requires n <= 256
    ensures Restored(CreateAll(Create(CTRL_BUF_SIZE), NoFaults(n)), n)
  {
    var start, reqs := Create(CTRL_BUF_SIZE), QpRequests(n);
    QpsFit(n);
    CreateAllIs(start, n);
    var b := CreateAll(start, NoFaults(n));
    var order := seq(|reqs|, i => i);
    GrantedAreBlocks(CTRL_BUF_SIZE, reqs, order);
    ReplayRestores(CTRL_BUF_SIZE, reqs, order);
    DestroyAllIs(b.heap, b.qps);
    var free := DestroyAll(b.heap, b.qps);
    SameGrants(start, free, reqs);
    CreateAllIs(free, n);
    OffsetsDetermine(CreateAll(free, NoFaults(n)).qps, b.qps);
  }

  /** The offsets of queue pair i: its completion queue of 1 MiB, the doorbell behind it, its work queue on the next
      page, the doorbell behind that. */
  function PlaceOf(i: nat): seq<nat>
  {
    [i * 2105344, i * 2105344 + 1048576, i * 2105344 + 1052672, i * 2105344 + 2101248]
  }

  lemma {:induction false} NextPlaced(h: Heap, n: nat)
    requires QpHeap(h, n) && n < 256
    ensures var r := CreateQp(h, QUEUE_BYTES, NoFault);
      r.made.Some? && OffsetsOf(r.made.value) == PlaceOf(n)
  {
    var a := TakePage(h, QUEUE_BYTES);
    var b := TakeDbr(a.heap);
    var d := TakePage(b.heap, QUEUE_BYTES);
    var e := TakeDbr(d.heap);
    FourPlaced(h, n, a, b, d, e);
    CreateOffsets(h, a, b, d, e);
  }

  lemma {:induction false} FourPlaced(h: Heap, n: nat, a: Allocation, b: Allocation, d: Allocation, e: Allocation)
    requires QpHeap(h, n) && n < 256
    requires a == TakePage(h, QUEUE_BYTES) && b == TakeDbr(a.heap)
    requires d == TakePage(b.heap, QUEUE_BYTES) && e == TakeDbr(d.heap)
    ensures a.outcome.At? && b.outcome.At? && d.outcome.At? && e.outcome.At?
    ensures [a.outcome.offset, b.outcome.offset, d.outcome.offset, e.outcome.offset] == PlaceOf(n)
  {
    StrideIs(n);
    QpFits(h, n, n * 2105344);
  }

  lemma {:induction false} StrideIs(n: nat)
    ensures n * 2105344 == n * STRIDE && n * 2105344 >= 0
  {
  }

  /** Every queue pair of the list is at its place. */
  ghost predicate Placed(qps: seq<Qp>)
  {
    forall i :: 0 <= i < |qps| ==> OffsetsOf(qps[i]) == PlaceOf(i)
  }

  lemma {:induction false} AddPlaced(b: Batch, r: Made<Qp>)
    requires b.ok && Placed(b.qps) && r.made.Some? && OffsetsOf(r.made.value) == PlaceOf(|b.qps|)
    ensures Placed(Add(b, r).qps)
  {
  }

  lemma {:induction false} AllPlaced(n: nat)
    requires n <= 256
    ensures Placed(CreateAll(Create(CTRL_BUF_SIZE), NoFaults(n)).qps)
  {
    if n > 0 {
      AllPlaced(n - 1);
      NextOfAll(n - 1, CreateAll(Create(CTRL_BUF_SIZE), NoFaults(n - 1)));
      CreateAllNext(Create(CTRL_BUF_SIZE), n - 1);
    }
  }

  lemma {:induction false} NextOfAll(n: nat, b: Batch)
    requires n < 256 && b == CreateAll(Create(CTRL_BUF_SIZE), NoFaults(n)) && Placed(b.qps)
    ensures Placed(Extend(b, NoFault).qps)
  {
    QpsFit(n);
    CreateAllIs(Create(CTRL_BUF_SIZE), n);
    NextPlaced(b.heap, n);
    AddPlaced(b, CreateQp(b.heap, QUEUE_BYTES, NoFault));
  }

  /** Up to 256 queue pairs are created on a new heap, and any number of updates brings back the same queue pairs,
      each at its four offsets, and the same heap. */
  lemma {:induction false} UpdateRestoresLayout(n: nat, times: nat)
    requires n <= 256
    ensures var b := CreateAll(Create(0x4000_0000), NoFaults(n));
      && b.ok && |b.qps| == n && Updates(b, times) == b
      && forall i :: 0 <= i < n ==> OffsetsOf(b.qps[i]) == PlaceOf(i)
  {
    assert Create(0x4000_0000) == Create(CTRL_BUF_SIZE);
    UpdateOnce(n);
    AllPlaced(n);
    IterateFixed(Update, CreateAll(Create(CTRL_BUF_SIZE), NoFaults(n)), times);
  }
}
