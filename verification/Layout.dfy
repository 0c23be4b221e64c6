/** The byte layout of the communication buffer: two halves of four regions each, and the slots the
    kernels address inside the data regions. */
module Layout {
  import Arith
  import opened Config
  import opened Protocol
  import opened Theorems
  import opened KeepInv

  const INT_BYTES: nat := 4
  const INT4_BYTES: nat := 16
  const BF16_BYTES: nat := 2
  const SCALE_CHANNELS: nat := 128

  /** A byte range of the buffer. */
  datatype Region = Region(start: nat, size: nat)

  function SignalBytes(c: Config): nat { c.experts * INT_BYTES }

  function DataBytes(c: Config, hidden: nat): nat
  {
    c.experts * c.maxTokens * (2 * INT4_BYTES + hidden * BF16_BYTES)
  }

  // ---- the two halves ----

  /** Each region starts where the previous one ends, from 0 to total. */
  ghost predicate Tiles(regions: seq<Region>, total: nat)
  {
    && (regions == [] ==> total == 0)
    && (regions != [] ==> regions[0].start == 0)
    && (forall i :: 0 < i < |regions| ==> regions[i].start == regions[i - 1].start + regions[i - 1].size)
    && (regions != [] ==> regions[|regions| - 1].start + regions[|regions| - 1].size == total)
  }

  /** The four regions of one half, from `base` on. */
  function HalfRegions(base: nat, signal: nat, data: nat): seq<Region>
  {
    [Region(base, signal), Region(base + signal, signal),
     Region(base + 2 * signal, data), Region(base + 2 * signal + data, data)]
  }

  function HalfBase(i: nat, signal: nat, data: nat): nat { 2 * i * signal + 2 * i * data }

  lemma {:induction false} HalfBaseNext(i: nat, signal: nat, data: nat)
    ensures HalfBase(i + 1, signal, data) == HalfBase(i, signal, data) + 2 * signal + 2 * data
  {
    Arith.Distribute(2 * i, 2, signal);
    Arith.Distribute(2 * i, 2, data);
  }

  lemma {:induction false} TilesHalf(regions: seq<Region>, base: nat, signal: nat, data: nat)
    requires Tiles(regions, base)
    ensures Tiles(regions + HalfRegions(base, signal, data), base + 2 * signal + 2 * data)
  {
    var all := regions + HalfRegions(base, signal, data);
    forall i | 0 < i < |all|
      ensures all[i].start == all[i - 1].start + all[i - 1].size
    {
      if i < |regions| {
        assert all[i] == regions[i] && all[i - 1] == regions[i - 1];
      } else if i == |regions| {
        assert all[i - 1] == regions[i - 1];
      }
    }
  }

  /** Half number `half` has two signal regions and two data regions of these sizes. */
  predicate HalfSized(regions: seq<Region>, half: nat, signal: nat, data: nat)
  {
    && 4 * half + 3 < |regions|
    && regions[4 * half].size == signal && regions[4 * half + 1].size == signal
    && regions[4 * half + 2].size == data && regions[4 * half + 3].size == data
  }

  lemma {:induction false} HalfSizedNext(regions: seq<Region>, i: nat, base: nat, signal: nat, data: nat)
    requires |regions| == 4 * i && forall half: nat :: half < i ==> HalfSized(regions, half, signal, data)
    ensures forall half: nat :: half < i + 1 ==>
        HalfSized(regions + HalfRegions(base, signal, data), half, signal, data)
  {
    forall half: nat | half < i + 1
      ensures HalfSized(regions + HalfRegions(base, signal, data), half, signal, data)
    {
      assert half < i ==> HalfSized(regions, half, signal, data);
    }
  }

  /** BufferPair: send signals, receive signals, send data, receive data, twice. */
  method BufferPair(c: Config, hidden: nat) returns (regions: seq<Region>, total: nat)
    ensures |regions| == 8 && Tiles(regions, total)
    ensures forall half: nat :: half < 2 ==> HalfSized(regions, half, SignalBytes(c), DataBytes(c, hidden))
    ensures total == 4 * (4 * c.experts) + 4 * (c.experts * c.maxTokens * (32 + 2 * hidden))
  {
    regions, total := LayOut(SignalBytes(c), DataBytes(c, hidden));
  }

  method LayOut(signal: nat, data: nat) returns (regions: seq<Region>, total: nat)
    ensures |regions| == 8 && Tiles(regions, total) && total == 4 * signal + 4 * data
    ensures forall half: nat :: half < 2 ==> HalfSized(regions, half, signal, data)
  {
    total := 0;
    regions := [];
    for i := 0 to 2
      invariant |regions| == 4 * i && Tiles(regions, HalfBase(i, signal, data)) && total == 0
      invariant forall half: nat :: half < i ==> HalfSized(regions, half, signal, data)
    {
      var base := total + HalfBase(i, signal, data);
      HalfBaseNext(i, signal, data);
      TilesHalf(regions, base, signal, data);
      HalfSizedNext(regions, i, base, signal, data);
      regions := regions + HalfRegions(base, signal, data);
    }
    total := total + 4 * signal + 4 * data;
  }

  // ---- slots ----

  /** num_bytes_per_msg of dispatch. */
  function MessageBytes(hidden: nat, fp8: bool): nat
  {
    INT4_BYTES + if fp8 then hidden + hidden / SCALE_CHANNELS * 4 else hidden * BF16_BYTES
  }

  /** num_bytes_per_slot of combine. */
  function RowBytes(hidden: nat): nat { hidden * BF16_BYTES }

  /** Bytes of the slot a key names. */
  function SlotBytes(key: Key, hidden: nat, fp8: bool): nat
  {
    if key.TokenKey? || key.SlotKey? then MessageBytes(hidden, fp8) else RowBytes(hidden)
  }

  /** The offset of a slot in its data region, as the kernels compute it. */
  function SlotOffset(c: Config, key: Key, hidden: nat, fp8: bool): int
  {
    var msg, row := MessageBytes(hidden, fp8), RowBytes(hidden);
    if key.TokenKey? then key.t * msg
    else if key.SlotKey? then
      key.local * c.ranks * c.maxTokens * msg + key.src * c.maxTokens * msg + key.slot * msg
    else if key.RowKey? then key.local * c.ranks * c.maxTokens * row + key.pos * row
    else (Flat(c, key.expert) * c.maxTokens + key.token) * row
  }

  /** The number of the slot, counting slots of its size from the start of the region. */
  function SlotNumber(c: Config, key: Key): int
  {
    if key.TokenKey? then key.t
    else if key.SlotKey? then (key.local * c.ranks + key.src) * c.maxTokens + key.slot
    else if key.RowKey? then key.local * (c.ranks * c.maxTokens) + key.pos
    else Flat(c, key.expert) * c.maxTokens + key.token
  }

  lemma {:induction false} OffsetIsNumber(c: Config, key: Key, hidden: nat, fp8: bool)
    ensures SlotOffset(c, key, hidden, fp8) == SlotNumber(c, key) * SlotBytes(key, hidden, fp8)
  {
    var msg, row := MessageBytes(hidden, fp8), RowBytes(hidden);
    if key.SlotKey? {
      ThreeLevels(key.local, c.ranks, key.src, c.maxTokens, key.slot, msg);
    } else if key.RowKey? {
      Arith.Associate(key.local, c.ranks, c.maxTokens);
      Arith.Distribute(key.local * (c.ranks * c.maxTokens), key.pos, row);
    }
  }

  lemma {:induction false} ThreeLevels(a: int, r: int, b: int, m: int, s: int, u: int)
    ensures a * r * m * u + b * m * u + s * u == ((a * r + b) * m + s) * u
  {
    Arith.Distribute(a * r, b, m);
    Arith.Distribute((a * r + b) * m, s, u);
    Arith.Distribute(a * r * m, b * m, u);
  }

  /** Keys the same launch uses for the same buffer. */
  predicate SameBuffer(a: Key, b: Key)
  {
    || (a.TokenKey? && b.TokenKey?) || (a.RowKey? && b.RowKey?)
    || (a.SlotKey? && b.SlotKey?) || (a.OutKey? && b.OutKey?)
  }

  lemma {:induction false} SlotNumberInRange(c: Config, key: Key)
    requires WellFormed(c) && KeyInRange(c, key)
    ensures 0 <= SlotNumber(c, key) < c.experts * c.maxTokens
  {
    if key.TokenKey? {
      HasBlock(c);
      Arith.MulMono(1, c.experts, c.maxTokens);
    } else if key.SlotKey? {
      LocalMajor(c, key.local, key.src);
      Arith.RowMajor(key.local * c.ranks + key.src, key.slot, c.experts, c.maxTokens);
    } else if key.RowKey? {
      RowsInRange(c.locals, c.ranks, c.maxTokens, key.local, key.pos);
      assert c.locals * c.ranks == c.experts;
    } else {
      FlatGroupOf(c, key.expert);
      Arith.RowMajor(Flat(c, key.expert), key.token, c.experts, c.maxTokens);
    }
  }

  lemma {:induction false} LocalMajor(c: Config, local: nat, src: nat)
    requires WellFormed(c) && local < c.locals && src < c.ranks
    ensures 0 <= local * c.ranks + src < c.experts
  {
    Arith.RowMajor(local, src, c.locals, c.ranks);
  }

  lemma {:induction false} RowsInRange(locals: nat, ranks: nat, most: nat, local: nat, pos: nat)
    requires local < locals && pos < ranks * most
    ensures 0 <= local * (ranks * most) + pos < locals * ranks * most
  {
    Arith.RowMajor(local, pos, locals, ranks * most);
    Arith.Associate(locals, ranks, most);
  }

  lemma {:induction false} SlotNumberInjective(c: Config, a: Key, b: Key)
    requires WellFormed(c) && KeyInRange(c, a) && KeyInRange(c, b) && SameBuffer(a, b)
    requires SlotNumber(c, a) == SlotNumber(c, b)
    ensures a == b
  {
    if a.SlotKey? {
      LocalMajor(c, a.local, a.src);
      LocalMajor(c, b.local, b.src);
      var m, n := a.local * c.ranks + a.src, b.local * c.ranks + b.src;
      Arith.PairInjective(m, a.slot, n, b.slot, c.experts, c.maxTokens);
      Arith.PairInjective(a.local, a.src, b.local, b.src, c.locals, c.ranks);
    } else if a.RowKey? {
      Arith.PairInjective(a.local, a.pos, b.local, b.pos, c.locals, c.ranks * c.maxTokens);
    } else if a.OutKey? {
      FlatGroupOf(c, a.expert);
      FlatGroupOf(c, b.expert);
      Arith.PairInjective(Flat(c, a.expert), a.token, Flat(c, b.expert), b.token, c.experts, c.maxTokens);
    }
  }

  lemma {:induction false} SlotFits(key: Key, hidden: nat, fp8: bool)
    ensures SlotBytes(key, hidden, fp8) <= 2 * INT4_BYTES + hidden * BF16_BYTES
  {
  }

  /** Every slot lies in its data region, in both message formats. */
  lemma {:induction false} SlotInRegion(c: Config, key: Key, hidden: nat, fp8: bool)
    requires WellFormed(c) && KeyInRange(c, key)
    ensures 0 <= SlotOffset(c, key, hidden, fp8)
    ensures SlotOffset(c, key, hidden, fp8) + SlotBytes(key, hidden, fp8) <= DataBytes(c, hidden)
  {
    var n, u := SlotNumber(c, key), SlotBytes(key, hidden, fp8);
    var slots, room := c.experts * c.maxTokens, 2 * INT4_BYTES + hidden * BF16_BYTES;
    OffsetIsNumber(c, key, hidden, fp8);
    SlotNumberInRange(c, key);
    SlotFits(key, hidden, fp8);
    UnitsFit(n, u, slots, room);
  }

  lemma {:induction false} UnitsFit(n: nat, u: nat, slots: nat, room: nat)
    requires n < slots && u <= room
    ensures 0 <= n * u && n * u + u <= slots * room
  {
    Arith.MulMono(0, n, u);
    Arith.MulMono(n + 1, slots, u);
    Arith.Distribute(n, 1, u);
    assert slots * u == u * slots && slots * room == room * slots;
    Arith.MulMono(u, room, slots);
  }

  /** Different slots of the same buffer do not share a byte. */
  lemma {:induction false} SlotsDisjoint(c: Config, a: Key, b: Key, hidden: nat, fp8: bool)
    requires WellFormed(c) && KeyInRange(c, a) && KeyInRange(c, b) && SameBuffer(a, b) && a != b
    ensures var i, j := SlotOffset(c, a, hidden, fp8), SlotOffset(c, b, hidden, fp8);
      i + SlotBytes(a, hidden, fp8) <= j || j + SlotBytes(b, hidden, fp8) <= i
  {
    var m, n, u := SlotNumber(c, a), SlotNumber(c, b), SlotBytes(a, hidden, fp8);
    OffsetIsNumber(c, a, hidden, fp8);
    OffsetIsNumber(c, b, hidden, fp8);
    if m == n {
      SlotNumberInjective(c, a, b);
    } else if m < n {
      Arith.MulMono(m + 1, n, u);
      Arith.Distribute(m, 1, u);
    } else {
      Arith.MulMono(n + 1, m, u);
      Arith.Distribute(n, 1, u);
    }
  }

  /** Signal words of different groups are different words of the signal region. */
  lemma {:induction false} SignalWords(c: Config, k: nat, g: Group, h: Group)
    requires WellFormed(c) && k < |c.plan| && IsGroup(c, g) && IsGroup(c, h)
    ensures Word(c, k, g.peer, g.local) * INT_BYTES + INT_BYTES <= SignalBytes(c)
    ensures g != h ==> Word(c, k, g.peer, g.local) != Word(c, k, h.peer, h.local)
  {
    WordInRange(c, k, g);
    if Word(c, k, g.peer, g.local) == Word(c, k, h.peer, h.local) {
      WordInjective(c, k, g, h);
    }
  }

  /** In every run, different items of a launch that go to the same rank land in disjoint bytes of its receive
      region, in both message formats. */
  lemma {:induction false} MessagesNeverOverlap(c: Config, run: seq<State>, i: nat, hidden: nat, fp8: bool,
                             r: nat, k: nat, g: Group, it: Item, p: nat, h: Group, jt: Item)
    requires WellFormed(c) && IsRun(c, run) && i < |run|
    requires Send(r, k, g, it) in run[i].done && Send(p, k, h, jt) in run[i].done && g.peer == h.peer
    requires r != p || g != h || it != jt
    ensures k < |c.plan|
    ensures var a, b := DestKey(c, run[i], r, k, g, it), DestKey(c, run[i], p, k, h, jt);
      || SlotOffset(c, a, hidden, fp8) + SlotBytes(a, hidden, fp8) <= SlotOffset(c, b, hidden, fp8)
      || SlotOffset(c, b, hidden, fp8) + SlotBytes(b, hidden, fp8) <= SlotOffset(c, a, hidden, fp8)
    ensures var a := DestKey(c, run[i], r, k, g, it);
      0 <= SlotOffset(c, a, hidden, fp8) &&
          SlotOffset(c, a, hidden, fp8) + SlotBytes(a, hidden, fp8) <= DataBytes(c, hidden)
  {
    AddressesInRange(c, run, i, r, k, g, it);
    AddressesInRange(c, run, i, p, k, h, jt);
    RunInv(c, run, i);
    DistinctSlots(c, run[i], r, k, g, it, p, h, jt);
    var a, b := DestKey(c, run[i], r, k, g, it), DestKey(c, run[i], p, k, h, jt);
    SlotInRegion(c, a, hidden, fp8);
    SlotsDisjoint(c, a, b, hidden, fp8);
  }

  // ---- what a message carries ----

  /** The parts of a message: the token index, the values, in FP8 one scale for each 128 channels. */
  datatype Part = Index | Values | Scale(s: nat)

  predicate HasPart(hidden: nat, fp8: bool, part: Part)
  {
    part.Scale? ==> fp8 && part.s < hidden / 128
  }

  /** Where the kernels find a part: the index first, the values after a header of 16 bytes, one byte each in FP8 and
      two in BF16, then the scales, four bytes each. */
  function PartAt(hidden: nat, fp8: bool, part: Part): Region
  {
    if part.Index? then Region(0, 4)
    else if part.Values? then Region(16, if fp8 then hidden else 2 * hidden)
    else Region(16 + hidden + 4 * part.s, 4)
  }

  predicate Apart(a: Region, b: Region) { a.start + a.size <= b.start || b.start + b.size <= a.start }

  /** A message has room for each of its parts, and they do not meet. */
  lemma {:induction false} PartsFit(hidden: nat, fp8: bool, a: Part, b: Part)
    requires HasPart(hidden, fp8, a) && HasPart(hidden, fp8, b)
    ensures PartAt(hidden, fp8, a).start + PartAt(hidden, fp8, a).size <= MessageBytes(hidden, fp8)
    ensures a != b ==> Apart(PartAt(hidden, fp8, a), PartAt(hidden, fp8, b))
  {
  }

  /** The parts leave nothing out but the padding of the header, bytes 4 to 15. */
  lemma {:induction false} PartsCover(hidden: nat, fp8: bool, byte: nat) returns (part: Part)
    requires byte < MessageBytes(hidden, fp8) && !(4 <= byte < 16)
    ensures HasPart(hidden, fp8, part)
    ensures PartAt(hidden, fp8, part).start <= byte < PartAt(hidden, fp8, part).start + PartAt(hidden, fp8, part).size
  {
    part := if byte < 16 then Index
            else if fp8 && byte >= 16 + hidden then Scale((byte - 16 - hidden) / 4)
            else Values;
  }

  /** A combine slot is filled by the channels of a row, two bytes each. */
  lemma {:induction false} RowIsFilled(hidden: nat, byte: nat)
    ensures byte < RowBytes(hidden) <==> byte / 2 < hidden
  {
  }

  /** A part of the message in a slot, in the bytes of the data region. */
  function PartIn(c: Config, key: Key, hidden: nat, fp8: bool, part: Part): Region
    requires WellFormed(c) && KeyInRange(c, key)
  {
    SlotInRegion(c, key, hidden, fp8);
    Region(SlotOffset(c, key, hidden, fp8) + PartAt(hidden, fp8, part).start, PartAt(hidden, fp8, part).size)
  }

  /** In the data region no two parts meet, of the same message or of messages in different slots. */
  lemma {:induction false} PartsNeverMeet(c: Config, a: Key, b: Key, hidden: nat, fp8: bool, p: Part, q: Part)
    requires WellFormed(c) && KeyInRange(c, a) && KeyInRange(c, b)
    requires (a.SlotKey? && b.SlotKey?) || (a.TokenKey? && b.TokenKey?)
    requires HasPart(hidden, fp8, p) && HasPart(hidden, fp8, q) && (a != b || p != q)
    ensures Apart(PartIn(c, a, hidden, fp8, p), PartIn(c, b, hidden, fp8, q))
    ensures PartIn(c, a, hidden, fp8, p).start + PartIn(c, a, hidden, fp8, p).size <= DataBytes(c, hidden)
  {
    PartsFit(hidden, fp8, p, q);
    PartsFit(hidden, fp8, q, p);
    SlotInRegion(c, a, hidden, fp8);
    if a != b {
      SlotsDisjoint(c, a, b, hidden, fp8);
    }
  }

  // ---- both ends of a transfer ----

  /** Where the sender of dispatch writes: rank r, expert e, the slot it drew. */
  function SentAt(c: Config, r: nat, e: nat, slot: nat, msg: nat): int
    requires c.locals > 0
  {
    e % c.locals * c.ranks * c.maxTokens * msg + r * c.maxTokens * msg + slot * msg
  }

  /** Where the receiver of dispatch reads: warp group `group`, row i of its source. */
  function PackedFrom(c: Config, group: nat, i: nat, msg: nat): int
    requires c.locals > 0
  {
    var src, local := group / c.locals, group % c.locals;
    local * c.ranks * c.maxTokens * msg + src * c.maxTokens * msg + i * msg
  }

  /** Where the sender of combine writes: rank r, its expert `local`, the token's index at its source. */
  function ReturnedAt(c: Config, r: nat, local: nat, token: nat, row: nat): int
  {
    ((r * c.locals + local) * c.maxTokens + token) * row
  }

  /** Where the fold of combine reads: expert e of the routing table, token t. */
  function FoldedFrom(c: Config, e: nat, t: nat, row: nat): int { (e * c.maxTokens + t) * row }

  /** Sender and receiver of dispatch compute the same address, that of the slot. */
  lemma {:induction false} DispatchAddresses(c: Config, r: nat, e: nat, slot: nat, hidden: nat, fp8: bool)
    requires WellFormed(c) && r < c.ranks && e < c.experts
    ensures var msg := 16 + if fp8 then hidden + hidden / 128 * 4 else 2 * hidden;
      && SentAt(c, r, e, slot, msg) == PackedFrom(c, r * c.locals + e % c.locals, slot, msg)
      && SentAt(c, r, e, slot, msg) == SlotOffset(c, SlotKey(e % c.locals, r, slot), hidden, fp8)
  {
    Arith.RowMajor(r, e % c.locals, c.ranks, c.locals);
  }

  /** So do sender and receiver of combine. */
  lemma {:induction false} CombineAddresses(c: Config, e: nat, t: nat, hidden: nat, fp8: bool)
    requires WellFormed(c) && e < c.experts
    ensures ReturnedAt(c, e / c.locals, e % c.locals, t, 2 * hidden) == FoldedFrom(c, e, t, 2 * hidden)
    ensures FoldedFrom(c, e, t, 2 * hidden) ==
            SlotOffset(c, OutKey(Group(e / c.locals, e % c.locals), t), hidden, fp8)
  {
    assert e / c.locals * c.locals + e % c.locals == e;
  }
}
