/** The control-buffer allocator: a first-fit splitting allocator over a fixed table, with a bump
    fallback. One number, `allocated` in the program and `bump` here, is both the bump pointer and
    the count of bytes in use. */
module MemHeap {
  import Arith
  import opened Pow2

  const MAX_ALLOCATIONS: nat := 1024
  const WORD: nat := 0x1_0000_0000_0000_0000    // size_t wraps here

  datatype Block = Block(offset: nat, size: nat, used: bool)

  /** The heap as a value. `high` is the largest end of any block ever handed out; the allocator
      does not store it. */
  datatype Heap = Heap(size: nat, bump: nat, blocks: seq<Block>, high: nat)

  datatype Outcome = At(offset: nat) | ZeroSize | BadAlignment | NoMemory

  datatype Allocation = Allocation(heap: Heap, outcome: Outcome)

  // ---- size_t arithmetic ----

  function Add(a: nat, b: nat): nat
  {
    if a + b < WORD then a + b else (a + b) % WORD
  }

  function Sub(a: nat, b: nat): nat
  {
    if b <= a then a - b else (a + WORD - b % WORD) % WORD
  }

  /** (x | (align - 1)) + 1 when x is not a multiple of the power of two `align`. */
  function AlignUp(x: nat, align: nat): nat
    requires align > 0
  {
    if x % align == 0 then x else Add(x - x % align, align)
  }

  lemma {:induction false} AlignUpAligned(x: nat, align: nat)
    requires align > 0 && x + align < WORD
    ensures x <= AlignUp(x, align) < x + align && AlignUp(x, align) % align == 0
  {
    if x % align != 0 {
      var q := x / align;
      assert x == q * align + x % align;
      assert AlignUp(x, align) == (q + 1) * align;
      MultipleMod(q + 1, align);
    }
  }

  lemma {:induction false} MultipleMod(q: nat, d: nat)
    requires d > 0
    ensures (q * d) % d == 0
  {
    Arith.DivModUnique(q * d, d, q, 0);
  }

  // ---- the allocator on values ----

  /** The test of the scan, wrapping as size_t does. */
  predicate FitsIn(b: Block, size: nat, align: nat)
    requires align > 0
  {
    !b.used && Add(AlignUp(b.offset, align), size) <= Add(b.offset, b.size)
  }

  /** First free entry from i on that passes the test, or the table length. */
  function FirstFit(blocks: seq<Block>, size: nat, align: nat, i: nat): (j: nat)
    requires align > 0 && i <= |blocks|
    ensures i <= j <= |blocks|
    ensures j < |blocks| ==> FitsIn(blocks[j], size, align)
    ensures forall m :: i <= m < j ==> !FitsIn(blocks[m], size, align)
    decreases |blocks| - i
  {
    if i == |blocks| || FitsIn(blocks[i], size, align) then i else FirstFit(blocks, size, align, i + 1)
  }

  /** Appends an entry unless the table is full. */
  function Append(blocks: seq<Block>, b: Block): seq<Block>
  {
    if |blocks| < MAX_ALLOCATIONS then blocks + [b] else blocks
  }

  /** The table after `size` bytes were cut out of entry j at the aligned offset. */
  function Carve(blocks: seq<Block>, j: nat, size: nat, at: nat): seq<Block>
    requires j < |blocks|
  {
    var b := blocks[j];
    var end := Add(b.offset, b.size);
    var lead := if at > b.offset then Append(blocks, Block(b.offset, at - b.offset, false)) else blocks;
    var both :=
      if Add(at, size) < end then Append(lead, Block(Add(at, size), end - Add(at, size), false)) else lead;
    both[j := Block(at, size, true)]
  }

  function Max(a: nat, b: nat): nat { if a < b then b else a }

  function Take(h: Heap, size: nat, align: nat): Allocation
  {
    if size == 0 then Allocation(h, ZeroSize)
    else if !IsPow2(align) then Allocation(h, BadAlignment)
    else
      var j := FirstFit(h.blocks, size, align, 0);
      if j < |h.blocks| then
        var at := AlignUp(h.blocks[j].offset, align);
        Allocation(Heap(h.size, Add(h.bump, size), Carve(h.blocks, j, size, at), Max(h.high, at + size)), At(at))
      else
        Bump(h, size, align)
  }

  function Bump(h: Heap, size: nat, align: nat): Allocation
    requires align > 0
  {
    var at := AlignUp(h.bump, align);
    if Add(at, size) <= h.size then
      Allocation(Heap(h.size, Add(at, size), Append(h.blocks, Block(at, size, true)), Max(h.high, at + size)), At(at))
    else
      Allocation(h, NoMemory)
  }

  /** When an allocation fails, and with which error: it then changes nothing. */
  lemma {:induction false} TakeFails(h: Heap, size: nat, align: nat)
    ensures Take(h, size, align).outcome == ZeroSize <==> size == 0
    ensures Take(h, size, align).outcome == BadAlignment <==> size > 0 && !IsPow2(align)
    ensures Take(h, size, align).outcome == NoMemory <==>
              size > 0 && IsPow2(align) && (forall i :: 0 <= i < |h.blocks| ==> !FitsIn(h.blocks[i], size, align)) &&
              Add(AlignUp(h.bump, align), size) > h.size
    ensures !Take(h, size, align).outcome.At? ==> Take(h, size, align).heap == h
  {
    if size > 0 && IsPow2(align) {
      var j := FirstFit(h.blocks, size, align, 0);
      assert j < |h.blocks| ==> FitsIn(h.blocks[j], size, align);
    }
  }

  /** memheap_alloc: the largest power of two dividing the size, kept between 8 and 16. */
  function DefaultAlign(size: nat): nat
  {
    if size > 0 && size % 16 == 0 then 16 else 8
  }

  /** For a size whose largest power-of-two divisor is p, the default alignment is p, but at least 8 and at most 16. */
  lemma {:induction false} DefaultAlignIs(size: nat, p: nat)
    requires size > 0 && IsPow2(p) && size % p == 0 && size % (2 * p) != 0
    ensures DefaultAlign(size) == if p < 8 then 8 else if p > 16 then 16 else p
  {
    SixteenDivides(size, p);
    assert IsPow2(8);
    if p > 8 {
      Pow2Gap(8, p);
    }
  }

  lemma {:induction false} SixteenDivides(size: nat, p: nat)
    requires size > 0 && IsPow2(p) && size % p == 0 && size % (2 * p) != 0
    ensures size % 16 == 0 <==> p >= 16
  {
    if p >= 16 {
      FromLarger(size, p);
    } else if size % 16 == 0 {
      FromSixteen(size, p);
    }
  }

  lemma {:induction false} FromLarger(size: nat, p: nat)
    requires IsPow2(p) && p >= 16 && size % p == 0
    ensures size % 16 == 0
  {
    assert IsPow2(16);
    Pow2Divides(16, p);
    Arith.DividesTrans(size, p, 16);
  }

  lemma {:induction false} FromSixteen(size: nat, p: nat)
    requires IsPow2(p) && p < 16 && size % 16 == 0
    ensures size % (2 * p) == 0
  {
    assert IsPow2(16);
    Pow2Gap(p, 16);
    Pow2Double(p);
    Pow2Divides(2 * p, 16);
    Arith.DividesTrans(size, 16, 2 * p);
  }

  /** First used entry from i on with this offset, or the table length. */
  function FindUsed(blocks: seq<Block>, offset: nat, i: nat): (j: nat)
    requires i <= |blocks|
    ensures i <= j <= |blocks|
    ensures j < |blocks| ==> blocks[j].used && blocks[j].offset == offset
    ensures forall m :: i <= m < j ==> !(blocks[m].used && blocks[m].offset == offset)
    decreases |blocks| - i
  {
    if i == |blocks| || (blocks[i].used && blocks[i].offset == offset) then i else FindUsed(blocks, offset, i + 1)
  }

  function Release(h: Heap, offset: nat): Heap
  {
    var j := FindUsed(h.blocks, offset, 0);
    if offset == WORD - 1 || j == |h.blocks| then h
    else
      var b := h.blocks[j];
      h.(bump := Sub(h.bump, b.size), blocks := h.blocks[j := b.(used := false)])
  }

  function Create(size: nat): Heap
  {
    Heap(size, 0, [], 0)
  }

  // ---- the allocator in place ----

  class Allocator {
    const size: nat
    const allocs: array<Block>
    var bump: nat
    var count: nat
    ghost var high: nat

    ghost predicate Valid()
      reads this
    {
      allocs.Length == MAX_ALLOCATIONS && count <= MAX_ALLOCATIONS
    }

    ghost function Value(): Heap
      requires Valid()
      reads this, allocs
    {
      Heap(size, bump, allocs[..count], high)
    }

    constructor (size: nat)
      ensures Valid() && fresh(allocs)
      ensures Value() == Create(size)
    {
      this.size := size;
      this.allocs := new Block[MAX_ALLOCATIONS](i => Block(0, 0, false));
      this.bump := 0;
      this.count := 0;
      this.high := 0;
    }

    method Push(b: Block)
      requires Valid()
      modifies this`count, allocs
      ensures Valid()
      ensures allocs[..count] == Append(old(allocs[..count]), b)
    {
      if count < MAX_ALLOCATIONS {
        allocs[count] := b;
        count := count + 1;
      }
    }

    method AlignedAlloc(size: nat, align: nat) returns (outcome: Outcome)
      requires Valid()
      modifies this, allocs
      ensures Valid()
      ensures Allocation(Value(), outcome) == Take(old(Value()), size, align)
    {
      if size == 0 {
        return ZeroSize;
      }
      if !IsPow2(align) {
        return BadAlignment;
      }
      var i := 0;
      while i < count
        invariant 0 <= i <= count && Valid() && Value() == old(Value())
        invariant FirstFit(allocs[..count], size, align, 0) == FirstFit(allocs[..count], size, align, i)
      {
        var b := allocs[i];
        assert allocs[..count][i] == b;
        var at := AlignUp(b.offset, align);
        if !b.used && Add(at, size) <= Add(b.offset, b.size) {
          CarveEntry(i, size, at);
          bump := Add(bump, size);
          high := Max(high, at + size);
          return At(at);
        }
        i := i + 1;
      }
      var at := AlignUp(bump, align);
      if Add(at, size) <= this.size {
        Push(Block(at, size, true));
        bump := Add(at, size);
        high := Max(high, at + size);
        return At(at);
      }
      return NoMemory;
    }

    method CarveEntry(i: nat, size: nat, at: nat)
      requires Valid() && i < count
      modifies this`count, allocs
      ensures Valid()
      ensures allocs[..count] == Carve(old(allocs[..count]), i, size, at)
    {
      ghost var before := allocs[..count];
      var b := allocs[i];
      var end := Add(b.offset, b.size);
      if at > b.offset {
        Push(Block(b.offset, at - b.offset, false));
      }
      if Add(at, size) < end {
        Push(Block(Add(at, size), end - Add(at, size), false));
      }
      ghost var both := allocs[..count];
      allocs[i] := Block(at, size, true);
      assert allocs[..count] == both[i := Block(at, size, true)];
    }

    method Alloc(size: nat) returns (outcome: Outcome)
      requires Valid()
      modifies this, allocs
      ensures Valid()
      ensures Allocation(Value(), outcome) == Take(old(Value()), size, DefaultAlign(size))
    {
      outcome := AlignedAlloc(size, DefaultAlign(size));
    }

    method Free(offset: nat)
      requires Valid()
      modifies this`bump, allocs
      ensures Valid()
      ensures Value() == Release(old(Value()), offset)
    {
      if offset == WORD - 1 {
        return;
      }
      var i := 0;
      while i < count
        invariant 0 <= i <= count && Valid() && Value() == old(Value())
        invariant FindUsed(allocs[..count], offset, 0) == FindUsed(allocs[..count], offset, i)
      {
        var b := allocs[i];
        assert allocs[..count][i] == b;
        if b.used && b.offset == offset {
          allocs[i] := b.(used := false);
          bump := Sub(bump, b.size);
          assert allocs[..count] == old(allocs[..count])[i := b.(used := false)];
          return;
        }
        i := i + 1;
      }
    }
  }
}
