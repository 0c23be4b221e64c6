/** When the allocator hands out disjoint memory: exactly as long as its bump fallback is reached
    with no free entry left and no piece of a split is dropped by a full table. */
module HeapPartition {
  import Arith
  import opened Pow2
  import opened MemHeap

  // ---- powers of two ----

  lemma {:induction false} WordIsPow2()
    ensures IsPow2(WORD)
  {
    Pow2Mul(0x100, 0x100);
    Pow2Mul(0x1_0000, 0x1_0000);
    Pow2Mul(0x1_0000_0000, 0x1_0000_0000);
  }

  /** Rounding up an address of a heap of at most half the address space does not wrap. */
  lemma {:induction false} AlignUpNoWrap(x: nat, align: nat)
    requires x <= WORD / 2 && IsPow2(align) && align < WORD
    ensures x <= AlignUp(x, align) < WORD && AlignUp(x, align) % align == 0 && AlignUp(x, align) < x + align
  {
    WordIsPow2();
    Pow2Gap(align, WORD);
    if x + align < WORD {
      AlignUpAligned(x, align);
    } else {
      assert x == align;
      Arith.DivModUnique(x, align, 1, 0);
    }
  }

  lemma {:induction false} HalfAligned(x: nat, align: nat)
    requires x < WORD / 2 && IsPow2(align) && align < WORD
    ensures AlignUp(x, align) <= WORD / 2
  {
    WordIsPow2();
    Pow2Gap(align, WORD);
    Pow2Divides(align, WORD / 2);
    AlignUpAligned(x, align);
    Arith.MultiplesApart(AlignUp(x, align), WORD / 2, align);
  }

  // ---- room ----

  /** The block could be placed at `at` inside a free entry. */
  predicate Room(b: Block, size: nat, align: nat, at: nat)
  {
    align > 0 && !b.used && b.offset <= at && at % align == 0 && at + size <= b.offset + b.size
  }

  lemma {:induction false} HalfStays(x: nat, align: nat)
    requires x <= WORD / 2 && IsPow2(align) && align < WORD
    ensures x <= AlignUp(x, align) <= WORD / 2 && AlignUp(x, align) % align == 0 && AlignUp(x, align) < x + align
  {
    AlignUpNoWrap(x, align);
    if x < WORD / 2 {
      HalfAligned(x, align);
    } else {
      WordIsPow2();
      Pow2Gap(align, WORD);
      Pow2Divides(align, WORD / 2);
    }
  }

  /** An entry passes the test of the scan exactly when it has room, and then its first aligned offset is the lowest. */
  lemma {:induction false} FitsMeans(b: Block, size: nat, align: nat)
    requires b.offset + b.size <= WORD / 2 && size < WORD / 2 && IsPow2(align) && align < WORD
    ensures FitsIn(b, size, align) <==> Room(b, size, align, AlignUp(b.offset, align))
    ensures forall at: nat :: Room(b, size, align, at) ==> AlignUp(b.offset, align) <= at && FitsIn(b, size, align)
  {
    HalfStays(b.offset, align);
    var up := AlignUp(b.offset, align);
    FitsIsRoom(b, size, align, up);
    forall at: nat | Room(b, size, align, at)
      ensures up <= at && Room(b, size, align, up)
    {
      Arith.MultiplesApart(up, at, align);
    }
  }

  lemma {:induction false} FitsIsRoom(b: Block, size: nat, align: nat, up: nat)
    requires b.offset + b.size <= WORD / 2 && size < WORD / 2 && align > 0
    requires up == AlignUp(b.offset, align) && b.offset <= up <= WORD / 2 && up % align == 0
    ensures FitsIn(b, size, align) <==> Room(b, size, align, up)
  {
  }

  // ---- bytes ----

  function FreeSize(b: Block): nat { if b.used then 0 else b.size }
  function UsedSize(b: Block): nat { if b.used then b.size else 0 }

  function FreeBytes(blocks: seq<Block>): nat
  {
    if blocks == [] then 0 else FreeBytes(blocks[..|blocks| - 1]) + FreeSize(blocks[|blocks| - 1])
  }

  function UsedBytes(blocks: seq<Block>): nat
  {
    if blocks == [] then 0 else UsedBytes(blocks[..|blocks| - 1]) + UsedSize(blocks[|blocks| - 1])
  }

  lemma {:induction false} BytesAppend(blocks: seq<Block>, b: Block)
    ensures FreeBytes(blocks + [b]) == FreeBytes(blocks) + FreeSize(b)
    ensures UsedBytes(blocks + [b]) == UsedBytes(blocks) + UsedSize(b)
  {
    assert (blocks + [b])[..|blocks|] == blocks;
  }

  lemma {:induction false} BytesUpdate(blocks: seq<Block>, j: nat, b: Block)
    requires j < |blocks|
    ensures FreeBytes(blocks[j := b]) + FreeSize(blocks[j]) == FreeBytes(blocks) + FreeSize(b)
    ensures UsedBytes(blocks[j := b]) + UsedSize(blocks[j]) == UsedBytes(blocks) + UsedSize(b)
  {
    var last := |blocks| - 1;
    if j == last {
      assert blocks[j := b][..last] == blocks[..last];
    } else {
      BytesUpdate(blocks[..last], j, b);
      assert blocks[j := b][..last] == blocks[..last][j := b];
    }
  }

  lemma {:induction false} NoFreeBytes(blocks: seq<Block>)
    requires forall i :: 0 <= i < |blocks| ==> blocks[i].size > 0
    ensures FreeBytes(blocks) == 0 <==> forall i :: 0 <= i < |blocks| ==> blocks[i].used
  {
    if blocks != [] {
      NoFreeBytes(blocks[..|blocks| - 1]);
    }
  }

  // ---- the partition ----

  function End(b: Block): nat { b.offset + b.size }

  predicate Disjoint(a: Block, b: Block) { End(a) <= b.offset || End(b) <= a.offset }

  predicate Inside(blocks: seq<Block>, high: nat)
  {
    forall i :: 0 <= i < |blocks| ==> blocks[i].size > 0 && End(blocks[i]) <= high
  }

  predicate Apart(blocks: seq<Block>)
  {
    forall i, j :: 0 <= i < j < |blocks| ==> Disjoint(blocks[i], blocks[j])
  }

  predicate HasEnd(blocks: seq<Block>, e: nat)
  {
    exists i :: 0 <= i < |blocks| && End(blocks[i]) == e
  }

  /** Entries are disjoint and inside the heap, the topmost byte ever handed out is tracked, and the
      bump pointer plus the free bytes is the high-water mark. */
  ghost predicate Partition(h: Heap)
  {
    && h.high <= h.size <= WORD / 2
    && |h.blocks| <= 1024
    && Inside(h.blocks, h.high)
    && Apart(h.blocks)
    && (h.high > 0 ==> HasEnd(h.blocks, h.high))
    && h.bump + FreeBytes(h.blocks) == h.high
    && UsedBytes(h.blocks) <= h.bump
  }

  predicate NoFreeEntry(blocks: seq<Block>)
  {
    forall i :: 0 <= i < |blocks| ==> blocks[i].used
  }

  /** Entries a first-fit allocation from block b adds to the table. */
  function Pieces(b: Block, size: nat, at: nat): nat
  {
    (if at > b.offset then 1 else 0) + (if at + size < End(b) then 1 else 0)
  }

  /** What a caller can check before allocating. */
  predicate SafeToTake(h: Heap, size: nat, align: nat)
  {
    if size == 0 || !IsPow2(align) then true
    else
      var j := FirstFit(h.blocks, size, align, 0);
      if j < |h.blocks| then
        var at := AlignUp(h.blocks[j].offset, align);
        at + size < WORD && |h.blocks| + Pieces(h.blocks[j], size, at) <= MAX_ALLOCATIONS
      else
        var at := AlignUp(h.bump, align);
        || Add(at, size) > h.size
        || (at + size < WORD && NoFreeEntry(h.blocks) && |h.blocks| < MAX_ALLOCATIONS)
  }

  // ---- splitting an entry ----

  /** Entry j was cut in two: x stays in place, y goes to the end of the table. */
  ghost predicate Cut(b: Block, x: Block, y: Block)
  {
    && !b.used && !x.used && !y.used && x.size > 0 && y.size > 0
    && ((x.offset == b.offset && y.offset == End(x) && End(y) == End(b)) ||
        (y.offset == b.offset && x.offset == End(y) && End(x) == End(b)))
  }

  lemma {:induction false} CutApart(blocks: seq<Block>, high: nat, j: nat, x: Block, y: Block)
    requires j < |blocks| && Inside(blocks, high) && Apart(blocks) && Cut(blocks[j], x, y)
    ensures Inside(blocks[j := x] + [y], high) && Apart(blocks[j := x] + [y])
  {
    var after := blocks[j := x] + [y];
    forall i, k | 0 <= i < k < |after|
      ensures Disjoint(after[i], after[k])
    {
      if k < |blocks| {
        assert Disjoint(blocks[i], blocks[k]);
      } else if i < j {
        assert Disjoint(blocks[i], blocks[j]);
      } else if j < i {
        assert Disjoint(blocks[j], blocks[i]);
      }
    }
  }

  lemma {:induction false} CutBytes(blocks: seq<Block>, j: nat, x: Block, y: Block, high: nat)
    requires j < |blocks| && Cut(blocks[j], x, y)
    ensures var after := blocks[j := x] + [y];
      && FreeBytes(after) == FreeBytes(blocks) && UsedBytes(after) == UsedBytes(blocks)
      && (HasEnd(blocks, high) ==> HasEnd(after, high))
  {
    var after := blocks[j := x] + [y];
    BytesUpdate(blocks, j, x);
    BytesAppend(blocks[j := x], y);
    if HasEnd(blocks, high) {
      var i :| 0 <= i < |blocks| && End(blocks[i]) == high;
      assert End(after[if i == j && End(x) != high then |blocks| else i]) == high;
    }
  }

  /** Entry j moved up to `at`, the part below it in a new entry. */
  function TrimLow(blocks: seq<Block>, j: nat, at: nat): seq<Block>
    requires j < |blocks| && at <= End(blocks[j])
  {
    var b := blocks[j];
    if at > b.offset then
      blocks[j := Block(at, End(b) - at, false)] + [Block(b.offset, at - b.offset, false)]
    else
      blocks
  }

  /** Entry j cut down to `size`, the part above it in a new entry. */
  function TrimHigh(blocks: seq<Block>, j: nat, size: nat): seq<Block>
    requires j < |blocks|
  {
    var b := blocks[j];
    if size < b.size then
      blocks[j := Block(b.offset, size, false)] + [Block(b.offset + size, b.size - size, false)]
    else
      blocks
  }

  /** What a trim of free entry j to the block x keeps. */
  ghost predicate Trimmed(blocks: seq<Block>, after: seq<Block>, high: nat, j: nat, x: Block)
  {
    && j < |after| && after[j] == x
    && Inside(after, high) && Apart(after)
    && FreeBytes(after) == FreeBytes(blocks) && UsedBytes(after) == UsedBytes(blocks)
    && (HasEnd(blocks, high) ==> HasEnd(after, high))
  }

  lemma {:induction false} TrimLowKeeps(blocks: seq<Block>, high: nat, j: nat, at: nat)
    requires j < |blocks| && Inside(blocks, high) && Apart(blocks) && !blocks[j].used
    requires blocks[j].offset <= at < End(blocks[j])
    ensures Trimmed(blocks, TrimLow(blocks, j, at), high, j, Block(at, End(blocks[j]) - at, false))
  {
    var b := blocks[j];
    var x := Block(at, End(b) - at, false);
    if at > b.offset {
      var y := Block(b.offset, at - b.offset, false);
      assert TrimLow(blocks, j, at) == blocks[j := x] + [y];
      CutApart(blocks, high, j, x, y);
      CutBytes(blocks, j, x, y, high);
      assert (blocks[j := x] + [y])[j] == x;
    } else {
      assert x == b;
    }
  }

  lemma {:induction false} TrimHighKeeps(blocks: seq<Block>, high: nat, j: nat, size: nat)
    requires j < |blocks| && Inside(blocks, high) && Apart(blocks) && !blocks[j].used
    requires 0 < size <= blocks[j].size
    ensures Trimmed(blocks, TrimHigh(blocks, j, size), high, j, Block(blocks[j].offset, size, false))
  {
    var b := blocks[j];
    if size < b.size {
      var x, y := Block(b.offset, size, false), Block(b.offset + size, b.size - size, false);
      assert TrimHigh(blocks, j, size) == blocks[j := x] + [y];
      CutApart(blocks, high, j, x, y);
      CutBytes(blocks, j, x, y, high);
      assert (blocks[j := x] + [y])[j] == x;
    } else {
      assert b == Block(b.offset, size, false);
    }
  }

  lemma {:induction false} CarveIsTrim(blocks: seq<Block>, j: nat, size: nat, at: nat)
    requires j < |blocks| && End(blocks[j]) < WORD && !blocks[j].used
    requires size > 0 && blocks[j].offset <= at && at + size <= End(blocks[j])
    requires |blocks| + Pieces(blocks[j], size, at) <= MAX_ALLOCATIONS
    ensures Carve(blocks, j, size, at) == TrimHigh(TrimLow(blocks, j, at), j, size)[j := Block(at, size, true)]
    ensures |Carve(blocks, j, size, at)| == |blocks| + Pieces(blocks[j], size, at)
  {
  }

  /** First fit with room in the table keeps the partition. */
  lemma {:induction false} CarveKeeps(h: Heap, j: nat, size: nat, at: nat)
    requires Partition(h) && j < |h.blocks| && !h.blocks[j].used
    requires size > 0 && h.blocks[j].offset <= at && at + size <= End(h.blocks[j])
    requires |h.blocks| + Pieces(h.blocks[j], size, at) <= MAX_ALLOCATIONS
    ensures Partition(Heap(h.size, h.bump + size, Carve(h.blocks, j, size, at), h.high))
  {
    var low := TrimLow(h.blocks, j, at);
    var cut := TrimHigh(low, j, size);
    TrimLowKeeps(h.blocks, h.high, j, at);
    TrimHighKeeps(low, h.high, j, size);
    CarveIsTrim(h.blocks, j, size, at);
    MarkUsed(cut, h.high, j);
  }

  lemma {:induction false} MarkUsed(blocks: seq<Block>, high: nat, j: nat)
    requires j < |blocks| && Inside(blocks, high) && Apart(blocks) && !blocks[j].used
    ensures var after := blocks[j := blocks[j].(used := true)];
      && Inside(after, high) && Apart(after)
      && FreeBytes(after) + blocks[j].size == FreeBytes(blocks)
      && UsedBytes(after) == UsedBytes(blocks) + blocks[j].size
      && (HasEnd(blocks, high) ==> HasEnd(after, high))
  {
    var b := blocks[j].(used := true);
    var after := blocks[j := b];
    BytesUpdate(blocks, j, b);
    forall i, k | 0 <= i < k < |after|
      ensures Disjoint(after[i], after[k])
    {
      assert Disjoint(blocks[i], blocks[k]);
    }
    if HasEnd(blocks, high) {
      var i :| 0 <= i < |blocks| && End(blocks[i]) == high;
      assert End(after[i]) == high;
    }
  }

  /** A split that drops a piece loses its bytes from the account. */
  lemma {:induction false} CarveDrops(h: Heap, j: nat, size: nat, at: nat)
    requires Partition(h) && j < |h.blocks| && !h.blocks[j].used
    requires size > 0 && h.blocks[j].offset <= at && at + size <= End(h.blocks[j])
    requires |h.blocks| + Pieces(h.blocks[j], size, at) > MAX_ALLOCATIONS
    ensures !Partition(Heap(h.size, h.bump + size, Carve(h.blocks, j, size, at), h.high))
  {
    var b := h.blocks[j];
    var used := Block(at, size, true);
    var low := Block(b.offset, at - b.offset, false);
    if at > b.offset && |h.blocks| < MAX_ALLOCATIONS {
      assert Carve(h.blocks, j, size, at) == (h.blocks + [low])[j := used];
      BytesAppend(h.blocks, low);
      BytesUpdate(h.blocks + [low], j, used);
    } else {
      assert Carve(h.blocks, j, size, at) == h.blocks[j := used];
      BytesUpdate(h.blocks, j, used);
    }
  }

  // ---- the bump fallback ----

  lemma {:induction false} BumpKeeps(h: Heap, size: nat, at: nat)
    requires Partition(h) && size > 0 && NoFreeEntry(h.blocks) && |h.blocks| < MAX_ALLOCATIONS
    requires h.bump <= at && at + size <= h.size
    ensures Partition(Heap(h.size, at + size, h.blocks + [Block(at, size, true)], Max(h.high, at + size)))
  {
    var b := Block(at, size, true);
    var after := h.blocks + [b];
    NoFreeBytes(h.blocks);
    BytesAppend(h.blocks, b);
    assert End(after[|h.blocks|]) == at + size;
  }

  lemma {:induction false} BumpBreaks(h: Heap, size: nat, at: nat)
    requires Partition(h) && size > 0 && h.bump <= at && at + size <= h.size
    requires !NoFreeEntry(h.blocks) || |h.blocks| == MAX_ALLOCATIONS
    ensures !Partition(Heap(h.size, at + size, Append(h.blocks, Block(at, size, true)), Max(h.high, at + size)))
  {
    NoFreeBytes(h.blocks);
    BytesAppend(h.blocks, Block(at, size, true));
  }

  // ---- one call ----

  lemma {:induction false} FirstFitKeepsPartition(h: Heap, size: nat, align: nat)
    requires Partition(h) && 0 < size < WORD && align < WORD && IsPow2(align)
    requires FirstFit(h.blocks, size, align, 0) < |h.blocks|
    ensures Partition(Take(h, size, align).heap) <==> SafeToTake(h, size, align)
  {
    var j := FirstFit(h.blocks, size, align, 0);
    var b := h.blocks[j];
    var at := AlignUp(b.offset, align);
    AlignUpNoWrap(b.offset, align);
    if at + size < WORD {
      assert Take(h, size, align).heap == Heap(h.size, h.bump + size, Carve(h.blocks, j, size, at), h.high);
      if |h.blocks| + Pieces(b, size, at) <= MAX_ALLOCATIONS {
        CarveKeeps(h, j, size, at);
      } else {
        CarveDrops(h, j, size, at);
      }
    }
  }

  lemma {:induction false} BumpKeepsPartition(h: Heap, size: nat, align: nat)
    requires Partition(h) && 0 < size < WORD && align < WORD && IsPow2(align)
    requires FirstFit(h.blocks, size, align, 0) == |h.blocks|
    ensures Partition(Take(h, size, align).heap) <==> SafeToTake(h, size, align)
  {
    var at := AlignUp(h.bump, align);
    AlignUpNoWrap(h.bump, align);
    var after := Bump(h, size, align).heap;
    if at + size <= h.size {
      var table := Append(h.blocks, Block(at, size, true));
      assert after == Heap(h.size, at + size, table, Max(h.high, at + size));
      if NoFreeEntry(h.blocks) && |h.blocks| < MAX_ALLOCATIONS {
        BumpKeeps(h, size, at);
      } else {
        BumpBreaks(h, size, at);
      }
    } else if Add(at, size) <= h.size {
      assert at + size >= WORD;
      assert after.high > h.size;
    } else {
      assert after == h;
    }
  }

  /** An allocation keeps the partition exactly when SafeToTake said so. */
  lemma {:induction false} TakeKeepsPartition(h: Heap, size: nat, align: nat)
    requires Partition(h) && size < WORD && align < WORD
    ensures Partition(Take(h, size, align).heap) <==> SafeToTake(h, size, align)
  {
    if size > 0 && IsPow2(align) {
      if FirstFit(h.blocks, size, align, 0) < |h.blocks| {
        FirstFitKeepsPartition(h, size, align);
      } else {
        BumpKeepsPartition(h, size, align);
      }
    }
  }

  /** A safe allocation that succeeds returns aligned memory inside the heap that no live block
      overlaps, records it, and leaves every live block in the table. */
  lemma {:induction false} TakeIsFresh(h: Heap, size: nat, align: nat)
    requires Partition(h) && size < WORD && align < WORD && SafeToTake(h, size, align)
    requires Take(h, size, align).outcome.At?
    ensures var at, after := Take(h, size, align).outcome.offset, Take(h, size, align).heap;
      && align > 0 && at % align == 0
      && at + size <= h.size
      && Block(at, size, true) in after.blocks
      && (forall b :: b in h.blocks && b.used ==> Disjoint(b, Block(at, size, true)) && b in after.blocks)
  {
    var at, after := Take(h, size, align).outcome.offset, Take(h, size, align).heap;
    var j := FirstFit(h.blocks, size, align, 0);
    if j < |h.blocks| {
      AlignUpNoWrap(h.blocks[j].offset, align);
      CarveIsTrim(h.blocks, j, size, at);
      assert after.blocks[j] == Block(at, size, true);
      forall b | b in h.blocks && b.used
        ensures Disjoint(b, Block(at, size, true)) && b in after.blocks
      {
        var i :| 0 <= i < |h.blocks| && h.blocks[i] == b;
        assert after.blocks[i] == b;
        assert if i < j then Disjoint(h.blocks[i], h.blocks[j]) else Disjoint(h.blocks[j], h.blocks[i]);
      }
    } else {
      AlignUpNoWrap(h.bump, align);
      NoFreeBytes(h.blocks);
    }
  }

  /** Entries of a partition have distinct offsets. */
  lemma {:induction false} OneEntry(h: Heap, i: nat, j: nat)
    requires Partition(h) && i < |h.blocks| && j < |h.blocks|
    ensures h.blocks[i].offset == h.blocks[j].offset ==> i == j
  {
    assert i < j ==> Disjoint(h.blocks[i], h.blocks[j]);
    assert j < i ==> Disjoint(h.blocks[j], h.blocks[i]);
  }

  lemma {:induction false} ReleaseKeepsPartition(h: Heap, offset: nat)
    requires Partition(h)
    ensures Partition(Release(h, offset))
  {
    var j := FindUsed(h.blocks, offset, 0);
    if offset != WORD - 1 && j < |h.blocks| {
      ReleaseAt(h, offset, j);
      MarkFree(h.blocks, h.high, j);
    }
  }

  /** A block that is in use was counted, so giving it back never wraps the counter. */
  lemma {:induction false} ReleaseAt(h: Heap, offset: nat, j: nat)
    requires UsedBytes(h.blocks) <= h.bump < WORD && offset != WORD - 1
    requires j == FindUsed(h.blocks, offset, 0) < |h.blocks|
    ensures h.blocks[j].size <= h.bump
    ensures Release(h, offset) ==
            h.(bump := h.bump - h.blocks[j].size, blocks := h.blocks[j := h.blocks[j].(used := false)])
  {
    UsedAtMost(h.blocks, j);
  }

  lemma {:induction false} MarkFree(blocks: seq<Block>, high: nat, j: nat)
    requires j < |blocks| && Inside(blocks, high) && Apart(blocks) && blocks[j].used
    ensures var after := blocks[j := blocks[j].(used := false)];
      && Inside(after, high) && Apart(after)
      && FreeBytes(after) == FreeBytes(blocks) + blocks[j].size
      && UsedBytes(after) + blocks[j].size == UsedBytes(blocks)
      && (HasEnd(blocks, high) ==> HasEnd(after, high))
  {
    var b := blocks[j].(used := false);
    var after := blocks[j := b];
    BytesUpdate(blocks, j, b);
    forall i, k | 0 <= i < k < |after|
      ensures Disjoint(after[i], after[k])
    {
      assert Disjoint(blocks[i], blocks[k]);
    }
    if HasEnd(blocks, high) {
      var i :| 0 <= i < |blocks| && End(blocks[i]) == high;
      assert End(after[i]) == high;
    }
  }

  lemma {:induction false} UsedAtMost(blocks: seq<Block>, j: nat)
    requires j < |blocks|
    ensures UsedSize(blocks[j]) <= UsedBytes(blocks)
  {
    if j < |blocks| - 1 {
      UsedAtMost(blocks[..|blocks| - 1], j);
    }
  }

  // ---- runs ----

  datatype Op = AllocOp(size: nat, align: nat) | FreeOp(offset: nat)

  function Run(h: Heap, ops: seq<Op>): Heap
    decreases |ops|
  {
    if ops == [] then h else Run(Step(h, ops[0]), ops[1..])
  }

  function Step(h: Heap, op: Op): Heap
  {
    match op
    case AllocOp(size, align) => Take(h, size, align).heap
    case FreeOp(offset) => Release(h, offset)
  }

  /** Every allocation of the run passes the check at the moment it is made. */
  predicate SafeRun(h: Heap, ops: seq<Op>)
    decreases |ops|
  {
    ops == [] || (
      && (ops[0].AllocOp? ==> SafeToTake(h, ops[0].size, ops[0].align))
      && SafeRun(Step(h, ops[0]), ops[1..]))
  }

  predicate InWords(ops: seq<Op>)
  {
    forall i :: 0 <= i < |ops| && ops[i].AllocOp? ==> ops[i].size < WORD && ops[i].align < WORD
  }

  /** The partition holds at every point of a run exactly when every allocation was safe. */
  lemma {:induction false} RunPartition(h: Heap, ops: seq<Op>)
    requires Partition(h) && InWords(ops)
    ensures SafeRun(h, ops) <==> AlwaysPartition(h, ops)
    decreases |ops|
  {
    if ops == [] {
      assert forall n :: 0 <= n <= |ops| ==> ops[..n] == [];
    } else {
      StepPartition(h, ops[0]);
      var next := Step(h, ops[0]);
      AlwaysNext(h, ops);
      if Partition(next) {
        RunPartition(next, ops[1..]);
      }
    }
  }

  ghost predicate AlwaysPartition(h: Heap, ops: seq<Op>)
  {
    forall n :: 0 <= n <= |ops| ==> Partition(Run(h, ops[..n]))
  }

  lemma {:induction false} StepPartition(h: Heap, op: Op)
    requires Partition(h) && (op.AllocOp? ==> op.size < WORD && op.align < WORD)
    ensures Partition(Step(h, op)) <==> (op.AllocOp? ==> SafeToTake(h, op.size, op.align))
  {
    if op.AllocOp? {
      TakeKeepsPartition(h, op.size, op.align);
    } else {
      ReleaseKeepsPartition(h, op.offset);
    }
  }

  lemma {:induction false} AlwaysNext(h: Heap, ops: seq<Op>)
    requires ops != [] && Partition(h)
    ensures AlwaysPartition(h, ops) <==> AlwaysPartition(Step(h, ops[0]), ops[1..])
    ensures AlwaysPartition(h, ops) ==> Partition(Step(h, ops[0]))
  {
    var next, rest := Step(h, ops[0]), ops[1..];
    assert Run(h, ops[..0]) == h;
    forall n | 0 <= n <= |rest|
      ensures Run(next, rest[..n]) == Run(h, ops[..n + 1])
    {
      assert ops[..n + 1][1..] == rest[..n];
    }
    if AlwaysPartition(h, ops) {
      forall n | 0 <= n <= |rest|
        ensures Partition(Run(next, rest[..n]))
      {
        assert Partition(Run(h, ops[..n + 1]));
      }
      assert Partition(Run(next, rest[..0]));
    }
    if AlwaysPartition(next, rest) {
      forall n | 0 <= n <= |ops|
        ensures Partition(Run(h, ops[..n]))
      {
        if n > 0 {
          assert Partition(Run(next, rest[..n - 1]));
        }
      }
    }
  }

  lemma {:induction false} FreshIsPartition(size: nat)
    requires size <= WORD / 2
    ensures Partition(Create(size))
  {
  }

  /** Two pages handed out, the first given back. */
  function HoleBelowLive(size: nat): Heap
  {
    Heap(size, 4096, [Block(0, 4096, false), Block(4096, 4096, true)], 8192)
  }

  lemma {:induction false} HoleIsReached(size: nat)
    requires 12288 <= size <= WORD / 2
    ensures Run(Create(size), [AllocOp(4096, 4096), AllocOp(4096, 4096), FreeOp(0)]) == HoleBelowLive(size)
  {
    assert IsPow2(4096);
    var h1 := Heap(size, 4096, [Block(0, 4096, true)], 4096);
    assert Take(Create(size), 4096, 4096).heap == h1;
    assert FirstFit(h1.blocks, 4096, 4096, 0) == 1;
    var h2 := Heap(size, 8192, [Block(0, 4096, true), Block(4096, 4096, true)], 8192);
    assert Take(h1, 4096, 4096).heap == h2;
    assert Release(h2, 0) == HoleBelowLive(size);
    var ops := [AllocOp(4096, 4096), AllocOp(4096, 4096), FreeOp(0)];
    assert ops[1..] == [AllocOp(4096, 4096), FreeOp(0)];
    assert ops[1..][1..] == [FreeOp(0)];
  }

  lemma {:induction false} HoleIsPartition(size: nat)
    requires 12288 <= size <= WORD / 2
    ensures Partition(HoleBelowLive(size))
  {
    var h := HoleBelowLive(size);
    BytesAppend([], h.blocks[0]);
    BytesAppend([h.blocks[0]], h.blocks[1]);
    assert h.blocks == [h.blocks[0]] + [h.blocks[1]];
    assert [h.blocks[0]] == [] + [h.blocks[0]];
    assert End(h.blocks[1]) == 8192;
  }

  /** Unrestricted disjointness fails: with a free entry too small for the request, the fallback
      bumps into live memory. */
  lemma {:induction false} FallbackOverlaps(size: nat)
    requires 12288 <= size <= WORD / 2
    ensures var h := Run(Create(size), [AllocOp(4096, 4096), AllocOp(4096, 4096), FreeOp(0)]);
      && Partition(h)
      && Block(4096, 4096, true) in h.blocks
      && Take(h, 8192, 4096).outcome == At(4096)
      && !SafeToTake(h, 8192, 4096)
  {
    HoleIsReached(size);
    HoleIsPartition(size);
    var h := HoleBelowLive(size);
    assert IsPow2(4096);
    assert h.blocks[1] == Block(4096, 4096, true) && !h.blocks[0].used;
    assert FirstFit(h.blocks, 8192, 4096, 2) == 2;
    assert FirstFit(h.blocks, 8192, 4096, 1) == 2;
    assert FirstFit(h.blocks, 8192, 4096, 0) == 2;
  }

  function SmallHole(size: nat): Heap
  {
    Heap(size, 8, [Block(0, 8, false), Block(8, 8, true)], 16)
  }

  /** An unsafe allocation breaks the account, not always disjointness: here the fallback lands past all blocks. */
  lemma {:induction false} UnsafeButDisjoint(size: nat)
    requires 8192 <= size <= WORD / 2
    ensures Run(Create(size), [AllocOp(8, 8), AllocOp(8, 8), FreeOp(0)]) == SmallHole(size)
    ensures var after := Take(SmallHole(size), 4096, 4096);
      && !SafeToTake(SmallHole(size), 4096, 4096)
      && after.outcome == At(4096) && Apart(after.heap.blocks) && !Partition(after.heap)
  {
    assert IsPow2(4096) && IsPow2(8);
    var h1 := Heap(size, 8, [Block(0, 8, true)], 8);
    assert Take(Create(size), 8, 8).heap == h1;
    assert FirstFit(h1.blocks, 8, 8, 0) == 1;
    var h2 := Heap(size, 16, [Block(0, 8, true), Block(8, 8, true)], 16);
    assert Take(h1, 8, 8).heap == h2;
    assert Release(h2, 0) == SmallHole(size);
    var ops := [AllocOp(8, 8), AllocOp(8, 8), FreeOp(0)];
    assert ops[1..] == [AllocOp(8, 8), FreeOp(0)];
    assert ops[1..][1..] == [FreeOp(0)];
    SmallHoleFallback(size);
  }

  lemma {:induction false} SmallHoleFallback(size: nat)
    requires 8192 <= size <= WORD / 2
    ensures var after := Take(SmallHole(size), 4096, 4096);
      && !SafeToTake(SmallHole(size), 4096, 4096)
      && after.outcome == At(4096) && Apart(after.heap.blocks) && !Partition(after.heap)
  {
    var h := SmallHole(size);
    assert IsPow2(4096);
    assert !h.blocks[0].used;
    assert FirstFit(h.blocks, 4096, 4096, 2) == 2;
    assert FirstFit(h.blocks, 4096, 4096, 1) == 2;
    assert FirstFit(h.blocks, 4096, 4096, 0) == 2;
    assert Take(h, 4096, 4096) == Allocation(PastHole(size), At(4096));
    PastHoleShape(size);
  }

  function PastHole(size: nat): Heap
  {
    Heap(size, 8192, [Block(0, 8, false), Block(8, 8, true)] + [Block(4096, 4096, true)], 8192)
  }

  lemma {:induction false} PastHoleShape(size: nat)
    ensures Apart(PastHole(size).blocks) && !Partition(PastHole(size))
  {
    SmallHoleBytes();
  }

  lemma {:induction false} SmallHoleBytes()
    ensures FreeBytes([Block(0, 8, false), Block(8, 8, true)] + [Block(4096, 4096, true)]) == 8
  {
    var a, b := Block(0, 8, false), Block(8, 8, true);
    BytesAppend([a, b], Block(4096, 4096, true));
    BytesAppend([a], b);
    BytesAppend([], a);
    assert [a, b] == [a] + [b] && [a] == [] + [a];
  }

  /** Sizes wrap as size_t does: with 8 bytes in use, a request of 2^64 - 8 bytes is granted at offset 8 and leaves the
      counter at zero; freeing the first block then wraps the counter. The check rejects the request. */
  lemma {:induction false} HugeSizeWraps(size: nat)
    requires 8 <= size <= WORD / 2
    ensures var h := Take(Create(size), 8, 8).heap;
      var after := Take(h, 0xFFFF_FFFF_FFFF_FFF8, 8);
      && !SafeToTake(h, 0xFFFF_FFFF_FFFF_FFF8, 8)
      && after.outcome == At(8) && after.heap.bump == 0
      && Release(after.heap, 0).bump == 0xFFFF_FFFF_FFFF_FFF8
  {
    assert IsPow2(8);
    var h := Heap(size, 8, [Block(0, 8, true)], 8);
    assert Take(Create(size), 8, 8).heap == h;
    assert FirstFit(h.blocks, 0xFFFF_FFFF_FFFF_FFF8, 8, 0) == 1;
    var after := Take(h, 0xFFFF_FFFF_FFFF_FFF8, 8).heap;
    assert after.blocks == [Block(0, 8, true), Block(8, 0xFFFF_FFFF_FFFF_FFF8, true)];
    assert FindUsed(after.blocks, 0, 0) == 0;
  }

  /** An allocation takes the first free entry that has room, at the lowest aligned offset in it. */
  lemma {:induction false} TakesFirstRoom(h: Heap, size: nat, align: nat, i: nat, at: nat)
    requires Partition(h) && 0 < size < WORD / 2 && IsPow2(align) && align < WORD
    requires i < |h.blocks| && Room(h.blocks[i], size, align, at)
    requires forall at': nat :: Room(h.blocks[i], size, align, at') ==> at <= at'
    requires forall j, at': nat :: 0 <= j < i ==> !Room(h.blocks[j], size, align, at')
    ensures Take(h, size, align).outcome == At(at)
  {
    var j := FirstFit(h.blocks, size, align, 0);
    FitsMeans(h.blocks[i], size, align);
    if j < |h.blocks| {
      FitsMeans(h.blocks[j], size, align);
    }
  }

  /** With no room in any free entry the block goes to the bump pointer, if the heap is large enough. */
  lemma {:induction false} NoRoomBumps(h: Heap, size: nat, align: nat)
    requires Partition(h) && 0 < size < WORD / 2 && IsPow2(align) && align < WORD
    requires forall j, at: nat :: 0 <= j < |h.blocks| ==> !Room(h.blocks[j], size, align, at)
    ensures Take(h, size, align).outcome ==
            if AlignUp(h.bump, align) + size <= h.size then At(AlignUp(h.bump, align)) else NoMemory
  {
    var j := FirstFit(h.blocks, size, align, 0);
    if j < |h.blocks| {
      FitsMeans(h.blocks[j], size, align);
    }
    HalfStays(h.bump, align);
  }
}
