/** Recreating the queue pairs restores the control buffer: allocate on a fresh heap, free in any
    order, allocate again, and every offset and the whole heap state are the same as before. */
module HeapReplay {
  import Arith
  import opened Pow2
  import Sets
  import opened MemHeap
  import opened HeapPartition
  import QpLifecycle

  datatype Request = Request(size: nat, align: nat)

  function TakeAll(h: Heap, reqs: seq<Request>): Heap
  {
    if reqs == [] then h
    else
      var last := reqs[|reqs| - 1];
      Take(TakeAll(h, reqs[..|reqs| - 1]), last.size, last.align).heap
  }

  /** What request i of the sequence gets. */
  function OutcomeOf(h: Heap, reqs: seq<Request>, i: nat): Outcome
    requires i < |reqs|
  {
    Take(TakeAll(h, reqs[..i]), reqs[i].size, reqs[i].align).outcome
  }

  predicate AllSucceed(h: Heap, reqs: seq<Request>)
  {
    forall i :: 0 <= i < |reqs| ==> OutcomeOf(h, reqs, i).At?
  }

  function ReleaseAll(h: Heap, offsets: seq<nat>): Heap
  {
    Sets.Fold(Release, h, offsets)
  }

  predicate Sane(size: nat, reqs: seq<Request>)
  {
    && size < WORD / 2 && |reqs| <= MAX_ALLOCATIONS
    && forall i :: 0 <= i < |reqs| ==> reqs[i].size <= size && reqs[i].align < WORD
  }

  lemma {:induction false} TakeSnoc(h: Heap, reqs: seq<Request>, q: Request)
    ensures TakeAll(h, reqs + [q]) == Take(TakeAll(h, reqs), q.size, q.align).heap
    ensures AllSucceed(h, reqs + [q]) <==> AllSucceed(h, reqs) && Take(TakeAll(h, reqs), q.size, q.align).outcome.At?
  {
    var n, all := |reqs|, reqs + [q];
    assert all[..n] == reqs;
    forall i | 0 <= i < n
      ensures OutcomeOf(h, all, i) == OutcomeOf(h, reqs, i)
    {
      assert all[..i] == reqs[..i];
    }
    assert OutcomeOf(h, all, n) == Take(TakeAll(h, reqs), q.size, q.align).outcome;
    if AllSucceed(h, all) {
      forall i | 0 <= i < n
        ensures OutcomeOf(h, reqs, i).At?
      {
        assert OutcomeOf(h, all, i).At?;
      }
      assert OutcomeOf(h, all, n).At?;
    }
  }

  // ---- laying out a fresh heap ----

  /** The heap holds exactly the requested blocks, all in use and in order. */
  ghost predicate LaidOut(h: Heap, size: nat, reqs: seq<Request>)
  {
    && Partition(h) && h.size == size && |h.blocks| == |reqs|
    && forall i :: 0 <= i < |reqs| ==> Serves(h.blocks[i], reqs[i])
  }

  predicate Serves(b: Block, q: Request)
  {
    b.used && b.size == q.size && IsPow2(q.align) && b.offset % q.align == 0
  }

  lemma {:induction false} AllUsedNoFit(blocks: seq<Block>, size: nat, align: nat, i: nat)
    requires align > 0 && i <= |blocks| && NoFreeEntry(blocks)
    ensures FirstFit(blocks, size, align, i) == |blocks|
  {
  }

  lemma {:induction false} LaysOutOne(h: Heap, size: nat, reqs: seq<Request>, q: Request)
    requires LaidOut(h, size, reqs) && |reqs| < MAX_ALLOCATIONS && size < WORD / 2
    requires q.size <= size && q.align < WORD && Take(h, q.size, q.align).outcome.At?
    ensures var after := Take(h, q.size, q.align);
      LaidOut(after.heap, size, reqs + [q]) &&
          after.heap.blocks == h.blocks + [Block(after.outcome.offset, q.size, true)]
  {
    AllUsedNoFit(h.blocks, q.size, q.align, 0);
    AlignUpNoWrap(h.bump, q.align);
    HalfAligned(h.bump, q.align);
    TakeKeepsPartition(h, q.size, q.align);
  }

  lemma {:induction false} FrontOutcomes(h: Heap, reqs: seq<Request>)
    requires reqs != [] && AllSucceed(h, reqs)
    ensures AllSucceed(h, reqs[..|reqs| - 1])
    ensures forall i :: 0 <= i < |reqs| - 1 ==> OutcomeOf(h, reqs[..|reqs| - 1], i) == OutcomeOf(h, reqs, i)
  {
    var front := reqs[..|reqs| - 1];
    forall i | 0 <= i < |front|
      ensures OutcomeOf(h, front, i) == OutcomeOf(h, reqs, i) && OutcomeOf(h, front, i).At?
    {
      assert front[..i] == reqs[..i];
      assert OutcomeOf(h, reqs, i).At?;
    }
  }

  /** The blocks of h are what the requests got. */
  ghost predicate Got(size: nat, reqs: seq<Request>, h: Heap)
  {
    && LaidOut(h, size, reqs)
    && forall i :: 0 <= i < |reqs| ==> OutcomeOf(Create(size), reqs, i) == At(h.blocks[i].offset)
  }

  /** A successful allocation sequence on a fresh heap lays the blocks out in request order. */
  lemma {:induction false} LaysOut(size: nat, reqs: seq<Request>)
    requires Sane(size, reqs) && AllSucceed(Create(size), reqs)
    ensures Got(size, reqs, TakeAll(Create(size), reqs))
  {
    if reqs != [] {
      var n := |reqs| - 1;
      FrontOutcomes(Create(size), reqs);
      LaysOut(size, reqs[..n]);
      assert OutcomeOf(Create(size), reqs, n).At?;
      LaysOutNext(size, reqs, TakeAll(Create(size), reqs[..n]));
    }
  }

  lemma {:induction false} LaysOutNext(size: nat, reqs: seq<Request>, h: Heap)
    requires Sane(size, reqs) && reqs != [] && AllSucceed(Create(size), reqs)
    requires h == TakeAll(Create(size), reqs[..|reqs| - 1]) && Got(size, reqs[..|reqs| - 1], h)
    ensures Got(size, reqs, TakeAll(Create(size), reqs))
  {
    var n := |reqs| - 1;
    FrontOutcomes(Create(size), reqs);
    assert OutcomeOf(Create(size), reqs, n).At?;
    LaysOutOne(h, size, reqs[..n], reqs[n]);
    assert reqs[..n] + [reqs[n]] == reqs;
  }

  // ---- freeing in any order ----

  /** Different entries of a table of n. */
  ghost predicate Entries(gone: seq<nat>, n: nat)
  {
    && (forall i :: 0 <= i < |gone| ==> gone[i] < n)
    && (forall i, j :: 0 <= i < j < |gone| ==> gone[i] != gone[j])
  }

  /** A permutation of the table indices. */
  ghost predicate IsOrder(order: seq<nat>, n: nat)
  {
    |order| == n && Entries(order, n)
  }

  function Offsets(blocks: seq<Block>, order: seq<nat>): seq<nat>
    requires forall i :: 0 <= i < |order| ==> order[i] < |blocks|
  {
    seq(|order|, i requires 0 <= i < |order| => blocks[order[i]].offset)
  }

  /** The table with the entries listed in `gone` free and the others in use. */
  function Masked(blocks: seq<Block>, gone: seq<nat>): seq<Block>
  {
    seq(|blocks|, i requires 0 <= i < |blocks| => blocks[i].(used := i !in gone))
  }

  lemma {:induction false} FindsIt(blocks: seq<Block>, offset: nat, m: nat, from: nat)
    requires from <= m < |blocks| && blocks[m].used && blocks[m].offset == offset
    requires forall i :: 0 <= i < |blocks| && i != m ==> blocks[i].offset != offset
    ensures FindUsed(blocks, offset, from) == m
  {
  }

  /** Freeing one live block of the layout. */
  lemma {:induction false} ReleasesOne(h: Heap, now: Heap, gone: seq<nat>, m: nat)
    requires Partition(h) && Partition(now) && now.blocks == Masked(h.blocks, gone) && m < |h.blocks| && m !in gone
    ensures var after := Release(now, h.blocks[m].offset);
      && Partition(after) && after.high == now.high && after.size == now.size
      && after.blocks == Masked(h.blocks, gone + [m])
  {
    var offset := h.blocks[m].offset;
    forall i | 0 <= i < |h.blocks| && i != m
      ensures now.blocks[i].offset != offset
    {
      OneEntry(h, i, m);
    }
    FindsIt(now.blocks, offset, m, 0);
    ReleaseKeepsPartition(now, offset);
    ReleaseAt(now, offset, m);
    MaskedNext(h.blocks, gone, m);
  }

  lemma {:induction false} MaskedNext(blocks: seq<Block>, gone: seq<nat>, m: nat)
    requires m < |blocks|
    ensures Masked(blocks, gone + [m]) == Masked(blocks, gone)[m := Masked(blocks, gone)[m].(used := false)]
  {
  }

  /** `now` is h with the blocks listed in `gone` given back. */
  ghost predicate Returned(h: Heap, now: Heap, gone: seq<nat>)
  {
    Partition(now) && now.high == h.high && now.size == h.size && now.blocks == Masked(h.blocks, gone)
  }

  lemma {:induction false} ReleasesMore(h: Heap, now: Heap, gone: seq<nat>, m: nat)
    requires Partition(h) && Returned(h, now, gone) && m < |h.blocks| && m !in gone
    ensures Returned(h, Release(now, h.blocks[m].offset), gone + [m])
  {
    ReleasesOne(h, now, gone, m);
  }

  lemma {:induction false} ReleasesNone(h: Heap)
    requires Partition(h) && NoFreeEntry(h.blocks)
    ensures Returned(h, ReleaseAll(h, Offsets(h.blocks, [])), [])
  {
    assert Masked(h.blocks, []) == h.blocks;
    assert Offsets(h.blocks, []) == [];
  }

  lemma {:induction false} ReleasesAll(h: Heap, gone: seq<nat>)
    requires Partition(h) && NoFreeEntry(h.blocks) && Entries(gone, |h.blocks|)
    ensures Returned(h, ReleaseAll(h, Offsets(h.blocks, gone)), gone)
  {
    if gone == [] {
      ReleasesNone(h);
    } else {
      var front, m := gone[..|gone| - 1], gone[|gone| - 1];
      assert gone == front + [m] && m !in front;
      ReleasesAll(h, front);
      ReleasesNext(h, front, m);
    }
  }

  lemma {:induction false} ReleasesNext(h: Heap, gone: seq<nat>, m: nat)
    requires Partition(h) && Entries(gone, |h.blocks|) && m < |h.blocks| && m !in gone
    requires Returned(h, ReleaseAll(h, Offsets(h.blocks, gone)), gone)
    ensures Returned(h, ReleaseAll(h, Offsets(h.blocks, gone + [m])), gone + [m])
  {
    ReleasesMore(h, ReleaseAll(h, Offsets(h.blocks, gone)), gone, m);
    ReleaseSnoc(h, Offsets(h.blocks, gone), h.blocks[m].offset);
    OffsetsSnoc(h.blocks, gone, m);
  }

  lemma {:induction false} OffsetsSnoc(blocks: seq<Block>, order: seq<nat>, m: nat)
    requires m < |blocks| && forall i :: 0 <= i < |order| ==> order[i] < |blocks|
    ensures Offsets(blocks, order + [m]) == Offsets(blocks, order) + [blocks[m].offset]
  {
  }

  lemma {:induction false} ReleaseSnoc(h: Heap, offsets: seq<nat>, offset: nat)
    ensures ReleaseAll(h, offsets + [offset]) == Release(ReleaseAll(h, offsets), offset)
  {
    Sets.FoldSnoc(Release, h, offsets, offset);
  }

  /** After everything was freed the table is the old one with every entry free. */
  lemma {:induction false} ReleasesEverything(h: Heap, order: seq<nat>)
    requires Partition(h) && NoFreeEntry(h.blocks) && IsOrder(order, |h.blocks|)
    ensures Replayed(h, ReleaseAll(h, Offsets(h.blocks, order)), 0)
  {
    ReleasesAll(h, order);
    forall m | 0 <= m < |h.blocks|
      ensures m in order
    {
      Sets.Pigeonhole(order, m);
    }
  }

  // ---- replay ----

  /** The first i blocks in use again, the rest still free. */
  ghost predicate Replayed(h: Heap, now: Heap, i: nat)
  {
    && Partition(now) && now.size == h.size && now.high == h.high
    && |now.blocks| == |h.blocks|
    && forall m :: 0 <= m < |h.blocks| ==> now.blocks[m] == h.blocks[m].(used := m < i)
  }

  lemma {:induction false} FirstFree(blocks: seq<Block>, size: nat, align: nat, i: nat, from: nat)
    requires align > 0 && from <= i < |blocks| && FitsIn(blocks[i], size, align)
    requires forall m :: 0 <= m < i ==> blocks[m].used
    ensures FirstFit(blocks, size, align, from) == i
  {
  }

  /** First fit on a free entry of exactly the size, already aligned, only marks it used. */
  lemma {:induction false} ExactFit(h: Heap, size: nat, align: nat, i: nat)
    requires size > 0 && IsPow2(align) && i < |h.blocks| && FirstFit(h.blocks, size, align, 0) == i
    requires h.blocks[i].size == size && h.blocks[i].offset % align == 0 && End(h.blocks[i]) < WORD
    ensures var after := Take(h, size, align);
      && after.outcome == At(h.blocks[i].offset) && after.heap.size == h.size
      && after.heap.high == MemHeap.Max(h.high, End(h.blocks[i]))
      && after.heap.blocks == h.blocks[i := h.blocks[i].(used := true)]
  {
  }

  /** The allocation gives block i back. */
  ghost predicate Regained(h: Heap, i: nat, a: Allocation)
  {
    i < |h.blocks| && a.outcome == At(h.blocks[i].offset) && Replayed(h, a.heap, i + 1)
  }

  /** The next request finds its old block: the first free entry, of exactly its size, already aligned. */
  lemma {:induction false} ReplaysOne(h: Heap, now: Heap, reqs: seq<Request>, i: nat)
    requires LaidOut(h, h.size, reqs) && Replayed(h, now, i) && i < |reqs| && Sane(h.size, reqs)
    ensures Regained(h, i, Take(now, reqs[i].size, reqs[i].align))
  {
    var q, b := reqs[i], h.blocks[i];
    assert Serves(b, q);
    assert now.blocks[i] == b.(used := false);
    FirstFree(now.blocks, q.size, q.align, i, 0);
    ExactFit(now, q.size, q.align, i);
    TakeKeepsPartition(now, q.size, q.align);
    ExactIsSafe(now, q.size, q.align, i);
  }

  lemma {:induction false} ExactIsSafe(h: Heap, size: nat, align: nat, i: nat)
    requires Partition(h) && size > 0 && IsPow2(align) && i < |h.blocks| && FirstFit(h.blocks, size, align, 0) == i
    requires h.blocks[i].size == size && h.blocks[i].offset % align == 0
    ensures SafeToTake(h, size, align)
  {
  }

  lemma {:induction false} ReplaysTo(h: Heap, free: Heap, reqs: seq<Request>, i: nat)
    requires LaidOut(h, h.size, reqs) && Replayed(h, free, 0) && i <= |reqs| && Sane(h.size, reqs)
    ensures Replayed(h, TakeAll(free, reqs[..i]), i)
  {
    if i == 0 {
      assert reqs[..0] == [];
    } else {
      ReplaysTo(h, free, reqs, i - 1);
      ReplaysNext(h, free, reqs, i - 1);
    }
  }

  lemma {:induction false} ReplaysNext(h: Heap, free: Heap, reqs: seq<Request>, i: nat)
    requires LaidOut(h, h.size, reqs) && i < |reqs| && Sane(h.size, reqs) && Replayed(h, TakeAll(free, reqs[..i]), i)
    ensures Replayed(h, TakeAll(free, reqs[..i + 1]), i + 1)
  {
    ReplaysOne(h, TakeAll(free, reqs[..i]), reqs, i);
    TakeTo(free, reqs, i);
  }

  lemma {:induction false} TakeTo(h: Heap, reqs: seq<Request>, i: nat)
    requires i < |reqs|
    ensures TakeAll(h, reqs[..i + 1]) == Take(TakeAll(h, reqs[..i]), reqs[i].size, reqs[i].align).heap
  {
    assert reqs[..i + 1][..i] == reqs[..i];
  }

  lemma {:induction false} ReplayOutcome(h: Heap, free: Heap, reqs: seq<Request>, i: nat)
    requires LaidOut(h, h.size, reqs) && Replayed(h, free, 0) && i < |reqs| && Sane(h.size, reqs)
    ensures OutcomeOf(free, reqs, i) == At(h.blocks[i].offset)
  {
    ReplaysTo(h, free, reqs, i);
    ReplaysOne(h, TakeAll(free, reqs[..i]), reqs, i);
  }

  /** Same table and high-water mark, same heap: the counter follows from the partition. */
  lemma {:induction false} ReplayedIsSame(h: Heap, now: Heap)
    requires Partition(h) && NoFreeEntry(h.blocks) && Replayed(h, now, |h.blocks|)
    ensures now == h
  {
    forall m | 0 <= m < |h.blocks|
      ensures now.blocks[m] == h.blocks[m]
    {
    }
    assert now.blocks == h.blocks;
  }

  /** On the layout h that the requests got, free everything in any order and ask again. */
  lemma {:induction false} ReplayLayout(h: Heap, reqs: seq<Request>, order: seq<nat>, free: Heap)
    requires LaidOut(h, h.size, reqs) && Sane(h.size, reqs) && IsOrder(order, |reqs|)
    requires free == ReleaseAll(h, Offsets(h.blocks, order))
    ensures TakeAll(free, reqs) == h
    ensures forall i :: 0 <= i < |reqs| ==> OutcomeOf(free, reqs, i) == At(h.blocks[i].offset)
  {
    assert forall i :: 0 <= i < |reqs| ==> Serves(h.blocks[i], reqs[i]);
    ReleasesEverything(h, order);
    ReplaysTo(h, free, reqs, |reqs|);
    assert reqs[..|reqs|] == reqs;
    ReplayedIsSame(h, TakeAll(free, reqs));
    forall i | 0 <= i < |reqs|
      ensures OutcomeOf(free, reqs, i) == At(h.blocks[i].offset)
    {
      ReplayOutcome(h, free, reqs, i);
    }
  }

  /** Free everything in any order and ask again: same offsets, same heap. */
  lemma {:induction false} ReplayRestores(size: nat, reqs: seq<Request>, order: seq<nat>)
    requires Sane(size, reqs) && AllSucceed(Create(size), reqs) && IsOrder(order, |reqs|)
    ensures var h := TakeAll(Create(size), reqs);
      && |h.blocks| == |reqs|
      && var free := ReleaseAll(h, Offsets(h.blocks, order));
      && TakeAll(free, reqs) == h
      && forall i :: 0 <= i < |reqs| ==> OutcomeOf(free, reqs, i) == OutcomeOf(Create(size), reqs, i)
  {
    var h := TakeAll(Create(size), reqs);
    LaysOut(size, reqs);
    ReplayLayout(h, reqs, order, ReleaseAll(h, Offsets(h.blocks, order)));
  }

  /** Any number of recreations, each freeing in an order of its own. */
  function Recreate(h: Heap, reqs: seq<Request>, orders: seq<seq<nat>>): Heap
  {
    if orders == [] then h
    else
      var now := Recreate(h, reqs, orders[..|orders| - 1]);
      var order := orders[|orders| - 1];
      if forall i :: 0 <= i < |order| ==> order[i] < |now.blocks| then
        TakeAll(ReleaseAll(now, Offsets(now.blocks, order)), reqs)
      else
        now
  }

  lemma {:induction false} RecreateRestores(size: nat, reqs: seq<Request>, orders: seq<seq<nat>>)
    requires Sane(size, reqs) && AllSucceed(Create(size), reqs)
    requires forall i :: 0 <= i < |orders| ==> IsOrder(orders[i], |reqs|)
    ensures Recreate(TakeAll(Create(size), reqs), reqs, orders) == TakeAll(Create(size), reqs)
  {
    if orders != [] {
      RecreateRestores(size, reqs, orders[..|orders| - 1]);
      ReplayRestores(size, reqs, orders[|orders| - 1]);
    }
  }

  // ---- the control buffer of the queue pairs ----

  const CTRL_BUF_SIZE: nat := 1024 * 1024 * 1024
  const QUEUE_BYTES: nat := 16384 * 64          // 16384 entries of 64 bytes
  const STRIDE: nat := 2 * (QUEUE_BYTES + QpLifecycle.PAGE)

  /** The heap calls of creating one queue pair: CQ, CQ doorbell, WQ, WQ doorbell. */
  function OneQp(): seq<Request>
    ensures |OneQp()| == 4
  {
    [Request(QUEUE_BYTES, QpLifecycle.PAGE), Request(QpLifecycle.DBR_BYTES, DefaultAlign(QpLifecycle.DBR_BYTES)),
     Request(QUEUE_BYTES, QpLifecycle.PAGE), Request(QpLifecycle.DBR_BYTES, DefaultAlign(QpLifecycle.DBR_BYTES))]
  }

  /** A successful creation of a queue pair makes exactly these four requests, in this order. */
  lemma {:induction false} CreateIsOneQp(h: Heap)
    ensures var r := QpLifecycle.CreateQp(h, QUEUE_BYTES, QpLifecycle.NoFault);
      && (r.made.Some? <==> AllSucceed(h, OneQp()))
      && (r.made.Some? ==> r.heap == TakeAll(h, OneQp()))
  {
    var q := OneQp();
    var a := Take(h, q[0].size, q[0].align);
    var b := Take(a.heap, q[1].size, q[1].align);
    var d := Take(b.heap, q[2].size, q[2].align);
    var e := Take(d.heap, q[3].size, q[3].align);
    FourMore(h, [], q, a, b, d, e);
    assert [] + q == q;
    QpLifecycle.CreateIsTakes(h, QUEUE_BYTES, a, b, d, e);
  }

  lemma {:induction false} TwoTakes(h: Heap, reqs: seq<Request>, x: Request, y: Request, a: Allocation, b: Allocation)
    requires a == Take(TakeAll(h, reqs), x.size, x.align) && b == Take(a.heap, y.size, y.align)
    ensures TakeAll(h, reqs + [x, y]) == b.heap
    ensures AllSucceed(h, reqs + [x, y]) <==> AllSucceed(h, reqs) && a.outcome.At? && b.outcome.At?
  {
    TakeSnoc(h, reqs, x);
    TakeSnoc(h, reqs + [x], y);
    assert reqs + [x, y] == reqs + [x] + [y];
  }

  function QpRequests(n: nat): seq<Request>
    ensures |QpRequests(n)| == 4 * n
  {
    if n == 0 then []
    else
      QpRequests(n - 1) + OneQp()
  }

  /** A fresh heap after n queue pairs. */
  ghost predicate QpHeap(h: Heap, n: nat)
  {
    && h.size == CTRL_BUF_SIZE && NoFreeEntry(h.blocks)
    && h.bump == if n == 0 then 0 else n * STRIDE - (QpLifecycle.PAGE - QpLifecycle.DBR_BYTES)
  }

  lemma {:induction false} BumpOnly(h: Heap, size: nat, align: nat)
    requires size > 0 && IsPow2(align) && NoFreeEntry(h.blocks)
    requires AlignUp(h.bump, align) + size <= h.size < WORD
    ensures var after := Take(h, size, align);
      && after.outcome == At(AlignUp(h.bump, align))
      && after.heap.size == h.size && NoFreeEntry(after.heap.blocks)
      && after.heap.bump == AlignUp(h.bump, align) + size
  {
    AllUsedNoFit(h.blocks, size, align, 0);
  }

  lemma {:induction false} AlignTo(x: nat, align: nat, y: nat)
    requires align > 0 && y % align == 0 && x <= y < x + align && x + align < WORD
    ensures AlignUp(x, align) == y
  {
    AlignUpAligned(x, align);
    Arith.MultiplesApart(AlignUp(x, align), y, align);
    Arith.MultiplesApart(y, AlignUp(x, align), align);
  }

  /** A queue goes to the next page, its doorbell right behind it. */
  lemma {:induction false} QueueFits(h: Heap, base: nat)
    requires h.size == CTRL_BUF_SIZE && NoFreeEntry(h.blocks)
    requires base % QpLifecycle.PAGE == 0 && h.bump <= base < h.bump + QpLifecycle.PAGE &&
        base + QUEUE_BYTES + QpLifecycle.PAGE <= CTRL_BUF_SIZE
    ensures var a := QpLifecycle.TakePage(h, QUEUE_BYTES);
      var b := QpLifecycle.TakeDbr(a.heap);
      && a.outcome == At(base) && b.outcome == At(base + QUEUE_BYTES)
      && b.heap.size == CTRL_BUF_SIZE && NoFreeEntry(b.heap.blocks)
      && b.heap.bump == base + QUEUE_BYTES + QpLifecycle.DBR_BYTES
  {
    assert IsPow2(4096) && IsPow2(8);
    AlignTo(h.bump, QpLifecycle.PAGE, base);
    BumpOnly(h, QUEUE_BYTES, QpLifecycle.PAGE);
    var a := Take(h, QUEUE_BYTES, QpLifecycle.PAGE).heap;
    AlignTo(a.bump, 8, a.bump);
    BumpOnly(a, QpLifecycle.DBR_BYTES, 8);
  }

  lemma {:induction false} QpBase(n: nat, base: nat)
    requires n < 256 && base == n * STRIDE
    ensures 0 <= base && base % QpLifecycle.PAGE == 0 && base + STRIDE <= CTRL_BUF_SIZE
  {
  }

  lemma {:induction false} QpFits(h: Heap, n: nat, base: nat)
    requires QpHeap(h, n) && n < 256 && base == n * STRIDE
    ensures var a := QpLifecycle.TakePage(h, QUEUE_BYTES);
      var b := QpLifecycle.TakeDbr(a.heap);
      var d := QpLifecycle.TakePage(b.heap, QUEUE_BYTES);
      var e := QpLifecycle.TakeDbr(d.heap);
      && a.outcome == At(base) && b.outcome == At(base + QUEUE_BYTES)
      && d.outcome == At(base + QUEUE_BYTES + QpLifecycle.PAGE)
      && e.outcome == At(base + 2 * QUEUE_BYTES + QpLifecycle.PAGE)
      && QpHeap(e.heap, n + 1)
  {
    QpBase(n, base);
    QueueFits(h, base);
    var b := QpLifecycle.TakeDbr(QpLifecycle.TakePage(h, QUEUE_BYTES).heap).heap;
    QueueFits(b, base + QUEUE_BYTES + QpLifecycle.PAGE);
    Arith.Distribute(n, 1, STRIDE);
  }

  /** One more queue pair after a sequence of requests. */
  lemma {:induction false} TakeQp(h: Heap, reqs: seq<Request>, n: nat)
    requires QpHeap(TakeAll(h, reqs), n) && n < 256 && AllSucceed(h, reqs)
    ensures QpHeap(TakeAll(h, reqs + OneQp()), n + 1) && AllSucceed(h, reqs + OneQp())
  {
    var q, now := OneQp(), TakeAll(h, reqs);
    var a := QpLifecycle.TakePage(now, QUEUE_BYTES);
    var b := QpLifecycle.TakeDbr(a.heap);
    var d := QpLifecycle.TakePage(b.heap, QUEUE_BYTES);
    var e := QpLifecycle.TakeDbr(d.heap);
    Arith.MulMono(0, n, STRIDE);
    QpFits(now, n, n * STRIDE);
    FourMore(h, reqs, q, a, b, d, e);
  }

  lemma {:induction false} FourMore(h: Heap, reqs: seq<Request>, q: seq<Request>,
                             a: Allocation, b: Allocation, d: Allocation, e: Allocation)
    requires |q| == 4 && a == Take(TakeAll(h, reqs), q[0].size, q[0].align) && b == Take(a.heap, q[1].size, q[1].align)
    requires d == Take(b.heap, q[2].size, q[2].align) && e == Take(d.heap, q[3].size, q[3].align)
    ensures TakeAll(h, reqs + q) == e.heap
    ensures AllSucceed(h, reqs + q) <==>
              AllSucceed(h, reqs) && a.outcome.At? && b.outcome.At? && d.outcome.At? && e.outcome.At?
  {
    TwoTakes(h, reqs, q[0], q[1], a, b);
    TwoTakes(h, reqs + [q[0], q[1]], q[2], q[3], d, e);
    assert reqs + q == reqs + [q[0], q[1]] + [q[2], q[3]];
  }

  lemma {:induction false} QpRequestsSane(n: nat)
    requires n <= 256
    ensures Sane(CTRL_BUF_SIZE, QpRequests(n))
  {
    if n > 0 {
      QpRequestsSane(n - 1);
    }
  }

  /** 256 queue pairs fit the table and the buffer. */
  lemma {:induction false} QpsFit(n: nat)
    requires n <= 256
    ensures Sane(CTRL_BUF_SIZE, QpRequests(n))
    ensures AllSucceed(Create(CTRL_BUF_SIZE), QpRequests(n))
    ensures QpHeap(TakeAll(Create(CTRL_BUF_SIZE), QpRequests(n)), n)
  {
    QpRequestsSane(n);
    if n > 0 {
      QpsFit(n - 1);
      TakeQp(Create(CTRL_BUF_SIZE), QpRequests(n - 1), n - 1);
    }
  }

  /** Freed in whatever order, any number of times, the requests of n queue pairs get their old blocks. */
  lemma {:induction false} RecreateQps(n: nat, orders: seq<seq<nat>>)
    requires n <= 256 && forall i :: 0 <= i < |orders| ==> IsOrder(orders[i], 4 * n)
    ensures var h := TakeAll(Create(CTRL_BUF_SIZE), QpRequests(n));
      Recreate(h, QpRequests(n), orders) == h
  {
    QpsFit(n);
    RecreateRestores(CTRL_BUF_SIZE, QpRequests(n), orders);
  }
}
