/** Creating and destroying a queue pair on the control-buffer heap, with every way it can fail: what is allocated
    on the way, what the clean-up gives back, and the one path that keeps its blocks for ever. */
module QpLifecycle {
  import opened Pow2
  import opened MemHeap
  import opened HeapPartition

  const PAGE: nat := 4096
  const DBR_BYTES: nat := 8

  /** The first foreign call that fails, if any: one before the completion queue is created, the memset of its
      entries, a later call of its creation, the queue pair's UAR, a call after its doorbell was allocated. */
  datatype Fault = NoFault | BeforeCq | CqMemset | CqObject | QpUar | QpObject

  datatype Option<T> = None | Some(value: T)

  datatype Cq = Cq(entries: nat, dbr: nat)

  datatype Qp = Qp(cq: Cq, wq: nat, dbr: nat)

  datatype Made<T> = Made(heap: Heap, made: Option<T>)

  function TakePage(h: Heap, bytes: nat): Allocation { Take(h, bytes, PAGE) }

  function TakeDbr(h: Heap): Allocation { Take(h, DBR_BYTES, DefaultAlign(DBR_BYTES)) }

  /** The failure path of mlx5gda_create_cq frees no heap block. */
  function CreateCq(h: Heap, bytes: nat, fault: Fault): Made<Cq>
  {
    var a := TakePage(h, bytes);
    if !a.outcome.At? || fault == CqMemset then Made(a.heap, None)
    else
      var d := TakeDbr(a.heap);
      if !d.outcome.At? || fault == CqObject then Made(d.heap, None)
      else Made(d.heap, Some(Cq(a.outcome.offset, d.outcome.offset)))
  }

  function DestroyCq(h: Heap, cq: Cq): Heap
  {
    Release(Release(h, cq.entries), cq.dbr)
  }

  function CreateQp(h: Heap, bytes: nat, fault: Fault): Made<Qp>
  {
    if fault == BeforeCq then Made(h, None)
    else
      var c := CreateCq(h, bytes, fault);
      if c.made.None? then Made(c.heap, None)
      else if fault == QpUar then Made(DestroyCq(c.heap, c.made.value), None)
      else
        var w := TakePage(c.heap, bytes);
        if !w.outcome.At? then Made(DestroyCq(w.heap, c.made.value), None)
        else
          var d := TakeDbr(w.heap);
          if !d.outcome.At? then Made(Release(DestroyCq(d.heap, c.made.value), w.outcome.offset), None)
          else
            var qp := Qp(c.made.value, w.outcome.offset, d.outcome.offset);
            if fault == QpObject then Made(DestroyQp(d.heap, qp), None) else Made(d.heap, Some(qp))
  }

  function DestroyQp(h: Heap, qp: Qp): Heap
  {
    Release(Release(DestroyCq(h, qp.cq), qp.wq), qp.dbr)
  }

  // ---- in place ----

  method CreateCqInPlace(heap: Allocator, bytes: nat, fault: Fault) returns (cq: Option<Cq>)
    requires heap.Valid()
    modifies heap, heap.allocs
    ensures heap.Valid() && Made(heap.Value(), cq) == CreateCq(old(heap.Value()), bytes, fault)
  {
    var entries := heap.AlignedAlloc(bytes, PAGE);
    if !entries.At? || fault == CqMemset {
      return None;
    }
    var dbr := heap.Alloc(DBR_BYTES);
    if !dbr.At? || fault == CqObject {
      return None;
    }
    return Some(Cq(entries.offset, dbr.offset));
  }

  method DestroyCqInPlace(heap: Allocator, cq: Cq)
    requires heap.Valid()
    modifies heap, heap.allocs
    ensures heap.Valid() && heap.Value() == DestroyCq(old(heap.Value()), cq)
  {
    heap.Free(cq.entries);
    heap.Free(cq.dbr);
  }

  method CreateQpInPlace(heap: Allocator, bytes: nat, fault: Fault) returns (qp: Option<Qp>)
    requires heap.Valid()
    modifies heap, heap.allocs
    ensures heap.Valid() && Made(heap.Value(), qp) == CreateQp(old(heap.Value()), bytes, fault)
  {
    if fault == BeforeCq {
      return None;
    }
    var cq := CreateCqInPlace(heap, bytes, fault);
    if cq.None? {
      return None;
    }
    var wq, dbr := NoMemory, NoMemory;
    if fault != QpUar {
      wq := heap.AlignedAlloc(bytes, PAGE);
      if wq.At? {
        dbr := heap.Alloc(DBR_BYTES);
        if dbr.At? && fault != QpObject {
          return Some(Qp(cq.value, wq.offset, dbr.offset));
        }
      }
    }
    DestroyCqInPlace(heap, cq.value);
    if wq.At? {
      heap.Free(wq.offset);
    }
    if dbr.At? {
      heap.Free(dbr.offset);
    }
    return None;
  }

  method DestroyQpInPlace(heap: Allocator, qp: Qp)
    requires heap.Valid()
    modifies heap, heap.allocs
    ensures heap.Valid() && heap.Value() == DestroyQp(old(heap.Value()), qp)
  {
    DestroyCqInPlace(heap, qp.cq);
    heap.Free(qp.wq);
    heap.Free(qp.dbr);
  }

  // ---- what is live ----

  function Live(h: Heap): set<Block>
  {
    set b | b in h.blocks && b.used
  }

  lemma {:induction false} TakeLive(h: Heap, size: nat, align: nat)
    requires Partition(h) && size < WORD && align < WORD && SafeToTake(h, size, align)
    ensures var a := Take(h, size, align);
      && Partition(a.heap)
      && (a.outcome.At? ==>
          var b := Block(a.outcome.offset, size, true); b !in Live(h) && Live(a.heap) == Live(h) + {b})
      && (!a.outcome.At? ==> a.heap == h)
  {
    TakeKeepsPartition(h, size, align);
    var a := Take(h, size, align);
    if a.outcome.At? {
      TakeIsFresh(h, size, align);
      var b := Block(a.outcome.offset, size, true);
      forall x | x in Live(a.heap)
        ensures x in Live(h) + {b}
      {
        NoOtherLive(h, size, align, x);
      }
    }
  }

  /** An allocation makes no other block live. */
  lemma {:induction false} NoOtherLive(h: Heap, size: nat, align: nat, x: Block)
    requires Take(h, size, align).outcome.At? && x in Live(Take(h, size, align).heap)
    ensures x in Live(h) || x == Block(Take(h, size, align).outcome.offset, size, true)
  {
  }

  lemma {:induction false} ReleaseLive(h: Heap, b: Block)
    requires Partition(h) && b in Live(h)
    ensures Partition(Release(h, b.offset)) && Live(Release(h, b.offset)) == Live(h) - {b}
  {
    ReleaseKeepsPartition(h, b.offset);
    var i :| 0 <= i < |h.blocks| && h.blocks[i] == b;
    var j := FindUsed(h.blocks, b.offset, 0);
    OneEntry(h, i, j);
    ReleaseAt(h, b.offset, j);
    var after := Release(h, b.offset);
    forall x | x in Live(after)
      ensures x in Live(h) && x != b
    {
      var k :| 0 <= k < |after.blocks| && after.blocks[k] == x;
      assert k != i && h.blocks[k] == x;
      OneEntry(h, i, k);
    }
    forall x | x in Live(h) && x != b
      ensures x in Live(after)
    {
      var k :| 0 <= k < |h.blocks| && h.blocks[k] == x;
      assert after.blocks[k] == x;
    }
  }

  // ---- accounts ----

  /** The heap is a partition whose live blocks are the old ones and the ones held. */
  ghost predicate Holding(h: Heap, was: set<Block>, held: set<Block>)
  {
    Partition(h) && was !! held && Live(h) == was + held
  }

  /** The block that an allocation handed out, if it did. */
  function Got(a: Allocation, size: nat): Block
    requires a.outcome.At?
  {
    Block(a.outcome.offset, size, true)
  }

  /** An allocation either hands out a block that was not live, or changes nothing. */
  ghost predicate Grabbed(h: Heap, was: set<Block>, held: set<Block>, size: nat, a: Allocation)
  {
    if a.outcome.At? then Got(a, size) !in was + held && Holding(a.heap, was, held + {Got(a, size)}) else a.heap == h
  }

  lemma {:induction false} Grab(h: Heap, was: set<Block>, held: set<Block>, size: nat, align: nat)
    requires Holding(h, was, held) && size < WORD && align < WORD && SafeToTake(h, size, align)
    ensures Grabbed(h, was, held, size, Take(h, size, align))
  {
    TakeLive(h, size, align);
  }

  lemma {:induction false} Drop(h: Heap, was: set<Block>, held: set<Block>, b: Block)
    requires Holding(h, was, held) && b in held
    ensures Holding(Release(h, b.offset), was, held - {b})
  {
    ReleaseLive(h, b);
    assert Live(h) - {b} == was + (held - {b});
  }

  lemma {:induction false} DropTwo(h: Heap, was: set<Block>, held: set<Block>, x: Block, y: Block)
    requires Holding(h, was, held + {x, y}) && x != y && x !in held && y !in held
    ensures Holding(Release(Release(h, x.offset), y.offset), was, held)
  {
    Drop(h, was, held + {x, y}, x);
    assert held + {x, y} - {x} == held + {y};
    Drop(Release(h, x.offset), was, held + {y}, y);
    assert held + {y} - {y} == held;
  }

  // ---- the completion queue ----

  /** The two allocations of a completion queue, as far as they are reached. */
  ghost predicate Pair(h: Heap, was: set<Block>, held: set<Block>, bytes: nat, a: Allocation, d: Allocation)
  {
    && Grabbed(h, was, held, bytes, a)
    && (a.outcome.At? ==> Grabbed(a.heap, was, held + {Got(a, bytes)}, DBR_BYTES, d))
  }

  /** Every allocation that a creation may reach is one that keeps the heap a partition. */
  predicate SafePair(h: Heap, bytes: nat)
  {
    && SafeToTake(h, bytes, PAGE)
    && (TakePage(h, bytes).outcome.At? ==> SafeToTake(TakePage(h, bytes).heap, DBR_BYTES, DefaultAlign(DBR_BYTES)))
  }

  lemma {:induction false} GrabPair(h: Heap, was: set<Block>, held: set<Block>, bytes: nat)
    requires Holding(h, was, held) && 0 < bytes < WORD && SafePair(h, bytes)
    ensures Pair(h, was, held, bytes, TakePage(h, bytes), TakeDbr(TakePage(h, bytes).heap))
  {
    Grab(h, was, held, bytes, PAGE);
    var a := TakePage(h, bytes);
    if a.outcome.At? {
      Grab(a.heap, was, held + {Got(a, bytes)}, DBR_BYTES, DefaultAlign(DBR_BYTES));
    }
  }

  /** The entries of the completion queue were allocated and then its creation failed. */
  predicate Leaks(h: Heap, bytes: nat, fault: Fault)
  {
    var a := TakePage(h, bytes);
    && fault != BeforeCq && a.outcome.At?
    && (fault == CqMemset || fault == CqObject || !TakeDbr(a.heap).outcome.At?)
  }

  lemma {:induction false} CqLeaks(h: Heap, bytes: nat, a: Allocation, d: Allocation)
    requires Partition(h) && Pair(h, Live(h), {}, bytes, a, d)
    ensures a.outcome.At? ==> Live(a.heap) != Live(h) && Live(d.heap) != Live(h)
    ensures !a.outcome.At? ==> Live(a.heap) == Live(h)
  {
    if a.outcome.At? {
      assert Got(a, bytes) !in Live(h) && Got(a, bytes) in Live(a.heap) && Got(a, bytes) in Live(d.heap);
    }
  }

  // ---- the queue pair ----

  predicate SafeQp(h: Heap, bytes: nat)
  {
    && SafePair(h, bytes)
    && (CreateCq(h, bytes, NoFault).made.Some? ==> SafePair(CreateCq(h, bytes, NoFault).heap, bytes))
  }

  /** The four blocks of a queue pair are live, distinct, and all that is live beside the old ones. */
  ghost predicate HoldsQp(h: Heap, was: set<Block>, x: Block, y: Block, z: Block, u: Block)
  {
    && Holding(h, was, {x, y, z, u})
    && x != y && z !in {x, y} && u !in {x, y, z}
  }

  /** Destroying the completion queue and freeing the other two blocks gives everything back. */
  lemma {:induction false} DropFour(h: Heap, was: set<Block>, x: Block, y: Block, z: Block, u: Block)
    requires HoldsQp(h, was, x, y, z, u)
    ensures Holding(Release(Release(Release(Release(h, x.offset), y.offset), z.offset), u.offset), was, {})
  {
    assert {x, y, z, u} == {z, u} + {x, y};
    DropTwo(h, was, {z, u}, x, y);
    assert {z, u} == {} + {z, u};
    DropTwo(Release(Release(h, x.offset), y.offset), was, {}, z, u);
  }

  /** With two blocks held, a pair of allocations gives two more. */
  lemma {:induction false} PairHolds(h: Heap, was: set<Block>, x: Block, y: Block, bytes: nat, w: Allocation,
                              e: Allocation)
    requires Holding(h, was, {x, y}) && x != y && Pair(h, was, {x, y}, bytes, w, e)
    ensures w.outcome.At? && e.outcome.At? ==> HoldsQp(e.heap, was, x, y, Got(w, bytes), Got(e, DBR_BYTES))
    ensures w.outcome.At? && !e.outcome.At? ==> Got(w, bytes) !in {x, y} && Holding(e.heap, was, {x, y, Got(w, bytes)})
    ensures !w.outcome.At? ==> Holding(w.heap, was, {x, y})
  {
    if w.outcome.At? {
      assert {x, y} + {Got(w, bytes)} == {x, y, Got(w, bytes)};
      if e.outcome.At? {
        assert {x, y, Got(w, bytes)} + {Got(e, DBR_BYTES)} == {x, y, Got(w, bytes), Got(e, DBR_BYTES)};
      }
    }
  }

  lemma {:induction false} DropThree(h: Heap, was: set<Block>, x: Block, y: Block, z: Block)
    requires Holding(h, was, {x, y, z}) && x != y && z !in {x, y}
    ensures Holding(Release(Release(Release(h, x.offset), y.offset), z.offset), was, {})
  {
    assert {x, y, z} == {z} + {x, y};
    DropTwo(h, was, {z}, x, y);
    assert {z} - {z} == {};
    Drop(Release(Release(h, x.offset), y.offset), was, {z}, z);
  }

  /** From a finished completion queue on, a creation either holds its four blocks or gives back all it took. */
  ghost predicate Settled(was: set<Block>, bytes: nat, r: Made<Qp>)
  {
    if r.made.None? then Holding(r.heap, was, {})
    else
      var qp := r.made.value;
      HoldsQp(r.heap, was, Block(qp.cq.entries, bytes, true), Block(qp.cq.dbr, DBR_BYTES, true),
              Block(qp.wq, bytes, true), Block(qp.dbr, DBR_BYTES, true))
  }

  /** The rest of CreateQp, once the completion queue is there. */
  function FinishQp(c: Heap, cq: Cq, bytes: nat, fault: Fault, w: Allocation, e: Allocation): Made<Qp>
  {
    if fault == QpUar then Made(DestroyCq(c, cq), None)
    else if !w.outcome.At? then Made(DestroyCq(w.heap, cq), None)
    else if !e.outcome.At? then Made(Release(DestroyCq(e.heap, cq), w.outcome.offset), None)
    else
      var qp := Qp(cq, w.outcome.offset, e.outcome.offset);
      if fault == QpObject then Made(DestroyQp(e.heap, qp), None) else Made(e.heap, Some(qp))
  }

  lemma {:induction false} FinishSettles(c: Heap, was: set<Block>, cq: Cq, bytes: nat, fault: Fault, w: Allocation,
                              e: Allocation)
    requires var x, y := Block(cq.entries, bytes, true), Block(cq.dbr, DBR_BYTES, true);
      x != y && Holding(c, was, {x, y}) && Pair(c, was, {x, y}, bytes, w, e)
    ensures Settled(was, bytes, FinishQp(c, cq, bytes, fault, w, e))
  {
    var x, y := Block(cq.entries, bytes, true), Block(cq.dbr, DBR_BYTES, true);
    PairHolds(c, was, x, y, bytes, w, e);
    assert {x, y} == {} + {x, y};
    if fault == QpUar {
      DropTwo(c, was, {}, x, y);
    } else if !w.outcome.At? {
      DropTwo(w.heap, was, {}, x, y);
    } else if !e.outcome.At? {
      DropThree(e.heap, was, x, y, Got(w, bytes));
    } else if fault == QpObject {
      DropFour(e.heap, was, x, y, Got(w, bytes), Got(e, DBR_BYTES));
    }
  }

  lemma {:induction false} CreateIsFinish(h: Heap, bytes: nat, fault: Fault)
    requires fault != BeforeCq && CreateCq(h, bytes, fault).made.Some?
    ensures var c := CreateCq(h, bytes, fault);
      var w := TakePage(c.heap, bytes);
      CreateQp(h, bytes, fault) == FinishQp(c.heap, c.made.value, bytes, fault, w, TakeDbr(w.heap))
  {
  }

  /** The completion queue was made: the two allocations succeeded, and it is the same as without a fault. */
  lemma {:induction false} CqMade(h: Heap, bytes: nat, fault: Fault)
    requires Partition(h) && 0 < bytes < WORD && SafePair(h, bytes) && CreateCq(h, bytes, fault).made.Some?
    ensures CreateCq(h, bytes, fault) == CreateCq(h, bytes, NoFault) && !Leaks(h, bytes, fault)
    ensures var c := CreateCq(h, bytes, fault);
      var x, y := Block(c.made.value.entries, bytes, true), Block(c.made.value.dbr, DBR_BYTES, true);
      x != y && Holding(c.heap, Live(h), {x, y})
  {
    var a := TakePage(h, bytes);
    GrabPair(h, Live(h), {}, bytes);
    assert {} + {Got(a, bytes)} == {Got(a, bytes)};
    var d := TakeDbr(a.heap);
    assert {Got(a, bytes)} + {Got(d, DBR_BYTES)} == {Got(a, bytes), Got(d, DBR_BYTES)};
  }

  /** A queue pair that was created holds exactly four new blocks, and destroying it gives back exactly those. A
      creation that failed has given back all it took if and only if it did not fail inside the creation of the
      completion queue after its first allocation. */
  lemma {:induction false} CreateQpAccounts(h: Heap, bytes: nat, fault: Fault)
    requires Partition(h) && 0 < bytes < WORD && SafeQp(h, bytes)
    ensures var r := CreateQp(h, bytes, fault);
      && (r.made.Some? ==> fault == NoFault && Settled(Live(h), bytes, r))
      && (r.made.Some? ==> Live(DestroyQp(r.heap, r.made.value)) == Live(h))
      && (r.made.None? ==> (Live(r.heap) == Live(h) <==> !Leaks(h, bytes, fault)))
  {
    var was := Live(h);
    var c := CreateCq(h, bytes, fault);
    if fault != BeforeCq {
      if c.made.None? {
        GrabPair(h, was, {}, bytes);
        CqLeaks(h, bytes, TakePage(h, bytes), TakeDbr(TakePage(h, bytes).heap));
      } else {
        CreateFinishes(h, bytes, fault);
      }
    }
  }

  lemma {:induction false} CreateFinishes(h: Heap, bytes: nat, fault: Fault)
    requires Partition(h) && 0 < bytes < WORD && SafeQp(h, bytes)
    requires fault != BeforeCq && CreateCq(h, bytes, fault).made.Some?
    ensures var r := CreateQp(h, bytes, fault);
      && Settled(Live(h), bytes, r) && !Leaks(h, bytes, fault)
      && (if r.made.Some? then Live(DestroyQp(r.heap, r.made.value)) == Live(h) else Live(r.heap) == Live(h))
  {
    var c := CreateCq(h, bytes, fault);
    CqMade(h, bytes, fault);
    var x, y := Block(c.made.value.entries, bytes, true), Block(c.made.value.dbr, DBR_BYTES, true);
    GrabPair(c.heap, Live(h), {x, y}, bytes);
    CreateIsFinish(h, bytes, fault);
    var w := TakePage(c.heap, bytes);
    FinishSettles(c.heap, Live(h), c.made.value, bytes, fault, w, TakeDbr(w.heap));
    var r := CreateQp(h, bytes, fault);
    if r.made.Some? {
      DestroyGivesBack(Live(h), bytes, r.heap, r.made.value);
    }
  }

  lemma {:induction false} DestroyGivesBack(was: set<Block>, bytes: nat, h: Heap, qp: Qp)
    requires Settled(was, bytes, Made(h, Some(qp)))
    ensures Holding(DestroyQp(h, qp), was, {})
  {
    DropFour(h, was, Block(qp.cq.entries, bytes, true), Block(qp.cq.dbr, DBR_BYTES, true),
             Block(qp.wq, bytes, true), Block(qp.dbr, DBR_BYTES, true));
  }

  /** Without a fault a creation is its four allocations. */
  lemma {:induction false} CreateIsTakes(h: Heap, bytes: nat, a: Allocation, b: Allocation, d: Allocation,
                              e: Allocation)
    requires a == TakePage(h, bytes) && b == TakeDbr(a.heap) && d == TakePage(b.heap, bytes) && e == TakeDbr(d.heap)
    ensures var r := CreateQp(h, bytes, NoFault);
      && (r.made.Some? <==> a.outcome.At? && b.outcome.At? && d.outcome.At? && e.outcome.At?)
      && (r.made.Some? ==> r.heap == e.heap)
      && (r.made.Some? ==>
            r.made.value == Qp(Cq(a.outcome.offset, b.outcome.offset), d.outcome.offset, e.outcome.offset))
  {
    var c := CreateCq(h, bytes, NoFault);
    if c.made.Some? {
      CreateIsFinish(h, bytes, NoFault);
    }
  }

  const GIB: nat := 1024 * 1024 * 1024

  lemma {:induction false} FirstPage()
    ensures TakePage(Create(GIB), 1048576) == Allocation(Heap(GIB, 1048576, [Block(0, 1048576, true)], 1048576), At(0))
  {
    assert IsPow2(4096);
  }

  lemma {:induction false} FirstDbr()
    ensures TakeDbr(Heap(GIB, 1048576, [Block(0, 1048576, true)], 1048576)) ==
            Allocation(Heap(GIB, 1048584, [Block(0, 1048576, true), Block(1048576, 8, true)], 1048584), At(1048576))
  {
    var h := Heap(GIB, 1048576, [Block(0, 1048576, true)], 1048576);
    assert IsPow2(8);
    assert FirstFit(h.blocks, 8, 8, 0) == 1;
  }

  /** The leak at an input: on a new 1 GiB heap the device refuses to create a completion queue of 16384 entries, and
      the queue's memory and its doorbell stay live although no handle to them is returned. */
  lemma {:induction false} LeakExample()
    ensures var h := Create(GIB);
      && Leaks(h, 1048576, CqObject) && Live(h) == {}
      && CreateQp(h, 1048576, CqObject).made.None?
      && Live(CreateQp(h, 1048576, CqObject).heap) == {Block(0, 1048576, true), Block(1048576, 8, true)}
  {
    FirstPage();
    FirstDbr();
  }
}
