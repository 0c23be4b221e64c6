/** The dispatch and combine kernels of all ranks as one step system.

    A step is one action of one warp or thread, or the fabric delivering the work request at the
    head of a queue pair. Steps of different warps, ranks and queue pairs interleave freely; the
    only order is the one the kernels enforce: data dependencies, counters, signal words and grid
    barriers (`Ready`), and the order of each warp's own work with the barriers of its block or
    group (`InTurn`). `done` records the steps taken, and so holds every thread's position. */
module Protocol {
  import opened Config
  import Warp

  const FINISHED_SUM_TAG: int := 1024

  // ---- memory ----

  /** A slot of a data buffer. TokenKey and RowKey lie in a send buffer, SlotKey and OutKey in a
      receive buffer. */
  datatype Key =
    | TokenKey(t: nat)
    | RowKey(local: nat, pos: int)
    | SlotKey(local: nat, src: nat, slot: int)
    | OutKey(expert: Group, token: nat)

  /** A dispatch message carries its token index ahead of the row; a combine slot is a bare row. */
  datatype Cell = TokenCell(src: nat, row: Row) | RowCell(row: Row) | Junk

  /** A data buffer of one half. Dispatch and combine lay out the same bytes differently, so the
      first write of a launch is taken to destroy whatever earlier launches left. */
  datatype Half = Half(owner: nat, cells: map<Key, Cell>)

  function Put(h: Half, k: nat, key: Key, v: Cell): Half
  {
    if h.owner == k then Half(k, h.cells[key := v]) else Half(k, map[key := v])
  }

  function Read(h: Half, key: Key): Cell
  {
    if key in h.cells then h.cells[key] else Junk
  }

  /** The two per-expert counter arrays at the start of the workspace. Combine's clean flag is the
      first word, which dispatch uses as the slot counter of expert 0. */
  datatype WsWord = Slots(g: Group) | Finished(g: Group)

  const FLAG := Slots(Group(0, 0))

  /** A posted work request. Data is read from the send buffer when the request executes. */
  datatype Request =
    | Write(k: nat, g: Group, it: Item, src: Key, dst: Key)
    | AtomicAdd(k: nat, g: Group, word: nat, value: int)

  /** (count, begin) of the packed range of one source. */
  datatype Range = Range(count: int, begin: int)

  // ---- steps ----

  datatype Event =
    | Clean(r: nat, k: nat, w: nat)               // clear word w of the other half
    | Stage(r: nat, k: nat, t: nat)               // dispatch: token t copied to the send buffer
    | Claim(r: nat, k: nat, g: Group, it: Item)   // dispatch: slot drawn from the atomic counter
    | StageRow(r: nat, k: nat, g: Group, it: Item) // combine: row copied to the send buffer
    | Send(r: nat, k: nat, g: Group, it: Item)    // direct copy, or work request posted
    | Finish(r: nat, k: nat, g: Group, it: Item)  // dispatch: finish counter += 1
    | Tag(r: nat, k: nat, g: Group)               // dispatch: finish counter += tag, after cleaning
    | Count(r: nat, k: nat, g: Group)             // dispatch: finish counter += tag - n
    | Raise(r: nat, k: nat)                       // combine: clean flag += experts
    | Signal(r: nat, k: nat, g: Group)            // count (or 1) published to the peer
    | Retire(r: nat, k: nat, g: Group)            // counters reset, or clean flag -= 1
    | Poll(r: nat, k: nat, g: Group)              // non-zero word seen
    | Copy(r: nat, k: nat, g: Group, it: Item)    // dispatch: message packed
    | Fold(r: nat, k: nat, t: nat, j: nat)        // combine: one multiply-accumulate
    | Store(r: nat, k: nat, t: nat)               // combine: token written
    | Land(r: nat, k: nat, g: Group, it: Item)    // data of r reached its destination
    | LandSignal(r: nat, k: nat, g: Group)        // signal of r reached its destination

  datatype Action = Do(ev: Event) | Deliver(r: nat, qp: nat) | Advance(r: nat)

  /** The memories of all ranks, their work queues, and what the kernels have produced. */
  datatype Memory = Memory(
    ws: map<(nat, WsWord), int>,                 // workspace, zero where absent
    words: map<(nat, nat, nat), int>,            // (rank, half, index): receive signal words
    recv: map<(nat, nat), Half>,
    send: map<(nat, nat), Half>,
    queue: map<(nat, nat), seq<Request>>,        // (rank, queue pair): posted, not yet executed
    slot: map<(nat, nat, Item), int>,            // slot register of the warp of a task
    claims: map<(nat, nat, Group), seq<Item>>,   // the order in which tasks drew their slots
    packedCount: map<(nat, nat), int>,           // (rank, local expert)
    layout: map<(nat, nat, Group), Range>,
    packed: map<(nat, nat, nat, int), Cell>,     // (rank, launch, local expert, position)
    acc: map<(nat, nat, nat, nat), Acc>,
    out: map<(nat, nat, nat), Row>)

  datatype State = State(
    round: seq<nat>,                             // launch each rank is executing
    done: set<Event>,
    mem: Memory)

  function Get<K, V>(m: map<K, V>, key: K, default: V): V
  {
    if key in m then m[key] else default
  }

  function Ws(s: State, r: nat, w: WsWord): int { Get(s.mem.ws, (r, w), 0) }
  function WordAt(s: State, r: nat, half: nat, w: nat): int { Get(s.mem.words, (r, half, w), 0) }
  function RecvHalf(s: State, r: nat, half: nat): Half { Get(s.mem.recv, (r, half), Half(0, map[])) }
  function SendHalf(s: State, r: nat, half: nat): Half { Get(s.mem.send, (r, half), Half(0, map[])) }
  function Queue(s: State, r: nat, qp: nat): seq<Request> { Get(s.mem.queue, (r, qp), []) }
  function SlotReg(s: State, r: nat, k: nat, it: Item): int { Get(s.mem.slot, (r, k, it), 0) }
  function Claims(s: State, r: nat, k: nat, g: Group): seq<Item> { Get(s.mem.claims, (r, k, g), []) }
  function PackedCount(s: State, r: nat, local: nat): int { Get(s.mem.packedCount, (r, local), 0) }
  function Layout(s: State, r: nat, k: nat, g: Group): Range { Get(s.mem.layout, (r, k, g), Range(0, 0)) }
  function Packed(s: State, r: nat, k: nat, local: nat, pos: int): Cell { Get(s.mem.packed, (r, k, local, pos), Junk) }
  function AccAt(s: State, r: nat, k: nat, t: nat, j: nat): Acc { Get(s.mem.acc, (r, k, t, j), []) }

  function RowOf(x: Cell): Row { if x.Junk? then [] else x.row }
  function SrcOf(x: Cell): nat { if x.TokenCell? then x.src else 0 }

  // ---- addresses and payloads ----

  function RowIndex(it: Item): nat { if it.Out? then it.row else 0 }

  /** Position of an item of a combine launch in the packed buffer. */
  function Pos(c: Config, s: State, r: nat, k: nat, g: Group, it: Item): int
    requires k < |c.plan|
  {
    Layout(s, r, Origin(c, k), g).begin + RowIndex(it)
  }

  function SourceKey(c: Config, s: State, r: nat, k: nat, g: Group, it: Item): Key
    requires k < |c.plan|
  {
    if it.Tok? then TokenKey(it.t) else RowKey(g.local, Pos(c, s, r, k, g, it))
  }

  function DestKey(c: Config, s: State, r: nat, k: nat, g: Group, it: Item): Key
    requires k < |c.plan|
  {
    if it.Tok? then SlotKey(g.local, r, SlotReg(s, r, k, it))
    else OutKey(Group(r, g.local), SrcOf(Packed(s, r, Origin(c, k), g.local, Pos(c, s, r, k, g, it))))
  }

  /** The expert's output for a packed row, which is what combine is given to send back. */
  function Output(c: Config, s: State, r: nat, k: nat, g: Group, it: Item): Cell
    requires k < |c.plan|
  {
    RowCell(c.expert(Group(r, g.local), RowOf(Packed(s, r, Origin(c, k), g.local, Pos(c, s, r, k, g, it)))))
  }

  function SignalValue(c: Config, r: nat, k: nat, g: Group): int
    requires c.locals > 0 && k < |c.plan|
  {
    if c.plan[k].Dispatch? then -(Sends(c, r, k, g) as int) - 1 else 1
  }

  // ---- guards ----

  ghost predicate AllClean(c: Config, done: set<Event>, r: nat, k: nat)
  {
    forall w: nat :: w < c.experts ==> Clean(r, k, w) in done
  }

  ghost predicate AllRetired(c: Config, done: set<Event>, r: nat, k: nat)
  {
    forall g :: IsGroup(c, g) ==> Retire(r, k, g) in done
  }

  ghost predicate AllPolled(c: Config, done: set<Event>, r: nat, k: nat)
  {
    forall g :: IsGroup(c, g) ==> Poll(r, k, g) in done
  }

  /** The program position and the spin conditions that let a step of launch k happen. */
  ghost predicate Ready(c: Config, s: State, ev: Event)
    requires WellFormed(c) && ev.r < c.ranks && ev.k < |c.plan|
  {
    if c.plan[ev.k].Dispatch? then DispatchReady(c, s, ev) else CombineReady(c, s, ev)
  }

  ghost predicate DispatchReady(c: Config, s: State, ev: Event)
    requires WellFormed(c) && ev.r < c.ranks && ev.k < |c.plan|
  {
    var r, k := ev.r, ev.k;
    if ev.Clean? then ev.w < c.experts
    else if ev.Stage? then ev.t < |c.batch(r, k).x|
    else if ev.Claim? then
      IsGroup(c, ev.g) && IsTask(c, r, k, ev.g, ev.it) && Stage(r, k, ev.it.t) in s.done
    else if ev.Send? then IsGroup(c, ev.g) && Claim(r, k, ev.g, ev.it) in s.done
    else if ev.Finish? then Send(r, k, ev.g, ev.it) in s.done
    else if ev.Tag? then IsGroup(c, ev.g) && AllClean(c, s.done, r, k)
    else if ev.Count? then IsGroup(c, ev.g)
    else if ev.Signal? then
      IsGroup(c, ev.g) && Count(r, k, ev.g) in s.done && Ws(s, r, Finished(ev.g)) == 2 * FINISHED_SUM_TAG
    else if ev.Retire? then Signal(r, k, ev.g) in s.done
    else if ev.Poll? then
      && IsGroup(c, ev.g)
      && AllRetired(c, s.done, r, k)
      && WordAt(s, r, k % 2, Word(c, k, ev.g.peer, ev.g.local)) != 0
    else if ev.Copy? then Poll(r, k, ev.g) in s.done && ev.it.Out? && ev.it.row < Layout(s, r, k, ev.g).count
    else false
  }

  ghost predicate CombineReady(c: Config, s: State, ev: Event)
    requires WellFormed(c) && ev.r < c.ranks && ev.k < |c.plan|
  {
    var r, k, d := ev.r, ev.k, Origin(c, ev.k);
    if ev.Clean? then ev.w < c.experts
    else if ev.Raise? then AllClean(c, s.done, r, k)
    else if ev.StageRow? then
      IsGroup(c, ev.g) && !Direct(c, r, ev.g.peer) && ev.it.Out? && ev.it.row < Layout(s, r, d, ev.g).count
    else if ev.Send? then
      && IsGroup(c, ev.g)
      && ev.it.Out? && ev.it.row < Layout(s, r, d, ev.g).count
      && (Direct(c, r, ev.g.peer) || StageRow(r, k, ev.g, ev.it) in s.done)
    else if ev.Signal? then
      && IsGroup(c, ev.g)
      && (forall row: nat :: row < Layout(s, r, d, ev.g).count ==> Send(r, k, ev.g, Out(row)) in s.done)
      && Ws(s, r, FLAG) != 0
    else if ev.Retire? then Signal(r, k, ev.g) in s.done
    else if ev.Poll? then
      IsGroup(c, ev.g) && WordAt(s, r, k % 2, Word(c, k, ev.g.peer, ev.g.local)) != 0
    else if ev.Fold? then
      && ev.t < |c.batch(r, d).x| && ev.j < Width(c.batch(r, d), ev.t)
      && AllPolled(c, s.done, r, k) && AllRetired(c, s.done, r, k)
      && (ev.j > 0 ==> Fold(r, k, ev.t, ev.j - 1) in s.done)
    else if ev.Store? then
      && ev.t < |c.batch(r, d).x|
      && AllPolled(c, s.done, r, k) && AllRetired(c, s.done, r, k)
      && (forall j: nat :: j < Width(c.batch(r, d), ev.t) ==> Fold(r, k, ev.t, j) in s.done)
    else false
  }

  // ---- program order ----

  /** The block of token t is done with it: it was staged, and its warps have sent it and said so. */
  ghost predicate TokenDone(c: Config, done: set<Event>, r: nat, k: nat, t: nat)
    requires c.locals > 0
  {
    && Stage(r, k, t) in done
    && (forall g, j: nat :: IsTask(c, r, k, g, Tok(t, j)) ==> Finish(r, k, g, Tok(t, j)) in done)
  }

  /** The lane that tags expert g has tagged those before it. */
  ghost predicate TagsBefore(c: Config, done: set<Event>, r: nat, k: nat, g: Group)
  {
    forall h :: IsGroup(c, h) && Flat(c, h) + Warp.LANES == Flat(c, g) ==> Tag(r, k, h) in done
  }

  /** The counting warp of a block has counted the experts before g; that of the first block has
      tagged all experts before it counts. */
  ghost predicate CountsBefore(c: Config, done: set<Event>, r: nat, k: nat, g: Group)
  {
    && (forall h :: IsGroup(c, h) && BlockOf(c, h) == BlockOf(c, g) && Flat(c, h) < Flat(c, g) ==>
        Count(r, k, h) in done)
    && (BlockOf(c, g) == 0 ==> forall h :: IsGroup(c, h) ==> Tag(r, k, h) in done)
  }

  /** All warps of a block are at its barrier: its tokens are sent and its experts counted. */
  ghost predicate BlockDone(c: Config, done: set<Event>, r: nat, k: nat, block: nat)
    requires WellFormed(c)
  {
    && (forall t: nat :: t < |c.batch(r, k).x| && TokenBlock(c, t) == block ==> TokenDone(c, done, r, k, t))
    && (forall h :: IsGroup(c, h) && BlockOf(c, h) == block ==> Count(r, k, h) in done)
  }

  /** The warp that sends row `row` of a combine range has sent its rows before; the first warp of
      the first group cleans and raises the flag before it sends anything. */
  ghost predicate RowTurn(c: Config, done: set<Event>, r: nat, k: nat, g: Group, row: nat)
  {
    && (row >= WARPS_PER_GROUP ==> Send(r, k, g, Out(row - WARPS_PER_GROUP)) in done)
    && (g == Group(0, 0) && row % WARPS_PER_GROUP == 0 ==> Raise(r, k) in done)
  }

  /** All warps of a group are at its barrier in combine: its rows are sent. */
  ghost predicate GroupSent(c: Config, s: State, r: nat, k: nat, g: Group)
    requires k < |c.plan|
  {
    && (forall row: nat :: row < Layout(s, r, Origin(c, k), g).count ==> Send(r, k, g, Out(row)) in s.done)
    && (g == Group(0, 0) ==> Raise(r, k) in s.done)
  }

  /** What the same warp does earlier, and the barriers of its block or group, are behind it. The
      counting warps of dispatch trap when the grid has a single block. */
  ghost predicate InTurn(c: Config, s: State, ev: Event)
    requires WellFormed(c) && ev.r < c.ranks && ev.k < |c.plan|
  {
    if c.plan[ev.k].Dispatch? then DispatchTurn(c, s, ev) else CombineTurn(c, s, ev)
  }

  ghost predicate DispatchTurn(c: Config, s: State, ev: Event)
    requires WellFormed(c) && ev.r < c.ranks && ev.k < |c.plan|
  {
    var r, k := ev.r, ev.k;
    if ev.Clean? then Blocks(c) > 1 && (ev.w >= Warp.LANES ==> Clean(r, k, ev.w - Warp.LANES) in s.done)
    else if ev.Stage? then ev.t >= Blocks(c) ==> TokenDone(c, s.done, r, k, ev.t - Blocks(c))
    else if ev.Tag? then TagsBefore(c, s.done, r, k, ev.g)
    else if ev.Count? then Blocks(c) > 1 && CountsBefore(c, s.done, r, k, ev.g)
    else if ev.Signal? then BlockDone(c, s.done, r, k, BlockOf(c, ev.g))
    else if ev.Copy? then
      RowIndex(ev.it) >= WARPS_PER_GROUP ==> Copy(r, k, ev.g, Out(RowIndex(ev.it) - WARPS_PER_GROUP)) in s.done
    else true
  }

  ghost predicate CombineTurn(c: Config, s: State, ev: Event)
    requires WellFormed(c) && ev.r < c.ranks && ev.k < |c.plan|
  {
    var r, k := ev.r, ev.k;
    if ev.Clean? then ev.w >= Warp.LANES ==> Clean(r, k, ev.w - Warp.LANES) in s.done
    else if ev.StageRow? || ev.Send? then RowTurn(c, s.done, r, k, ev.g, RowIndex(ev.it))
    else if ev.Signal? || ev.Poll? then GroupSent(c, s, r, k, ev.g)
    else if ev.Fold? || ev.Store? then ev.t >= Blocks(c) ==> Store(r, k, ev.t - Blocks(c)) in s.done
    else true
  }

  /** Every thread of rank r has returned from launch k. */
  ghost predicate Returned(c: Config, s: State, r: nat, k: nat)
    requires WellFormed(c) && k < |c.plan|
  {
    && AllPolled(c, s.done, r, k)
    && AllRetired(c, s.done, r, k)
    && if c.plan[k].Dispatch? then
         forall g, row: nat :: IsGroup(c, g) && row < Layout(s, r, k, g).count ==> Copy(r, k, g, Out(row)) in s.done
       else
         forall t: nat :: t < |c.batch(r, c.plan[k].of).x| ==> Store(r, k, t) in s.done
  }

  ghost predicate Enabled(c: Config, s: State, a: Action)
    requires WellFormed(c)
  {
    |s.round| == c.ranks &&
    if a.Do? then
      a.ev.r < c.ranks && a.ev.k == s.round[a.ev.r] < |c.plan| && a.ev !in s.done
      && Ready(c, s, a.ev) && InTurn(c, s, a.ev)
    else if a.Deliver? then
      a.r < c.ranks && a.qp < QpCount(c) && Queue(s, a.r, a.qp) != []
    else
      a.r < c.ranks && s.round[a.r] < |c.plan| && Returned(c, s, a.r, s.round[a.r])
  }

  // ---- effects ----

  function AddWs(s: State, r: nat, w: WsWord, v: int): map<(nat, WsWord), int>
  {
    s.mem.ws[(r, w) := Ws(s, r, w) + v]
  }

  function Post(s: State, r: nat, qp: nat, q: Request): map<(nat, nat), seq<Request>>
  {
    s.mem.queue[(r, qp) := Queue(s, r, qp) + [q]]
  }

  function PutSend(s: State, r: nat, k: nat, key: Key, v: Cell): map<(nat, nat), Half>
  {
    s.mem.send[(r, k % 2) := Put(SendHalf(s, r, k % 2), k, key, v)]
  }

  function PutRecv(s: State, peer: nat, k: nat, key: Key, v: Cell): map<(nat, nat), Half>
  {
    s.mem.recv[(peer, k % 2) := Put(RecvHalf(s, peer, k % 2), k, key, v)]
  }

  function PutWord(s: State, r: nat, half: nat, w: nat, v: int): map<(nat, nat, nat), int>
  {
    s.mem.words[(r, half, w) := v]
  }

  function DoClaim(s: State, r: nat, k: nat, g: Group, it: Item): Memory
  {
    s.mem.(ws := AddWs(s, r, Slots(g), 1),
    slot := s.mem.slot[(r, k, it) := Ws(s, r, Slots(g))],
    claims := s.mem.claims[(r, k, g) := Claims(s, r, k, g) + [it]])
  }

  /** What a warp copies directly: the staged message, or the expert's output row. */
  function Payload(c: Config, s: State, r: nat, k: nat, g: Group, it: Item): Cell
    requires k < |c.plan|
  {
    if it.Tok? then Read(SendHalf(s, r, k % 2), SourceKey(c, s, r, k, g, it)) else Output(c, s, r, k, g, it)
  }

  function WriteRequest(c: Config, s: State, r: nat, k: nat, g: Group, it: Item): Request
    requires k < |c.plan|
  {
    Write(k, g, it, SourceKey(c, s, r, k, g, it), DestKey(c, s, r, k, g, it))
  }

  function DoSend(c: Config, s: State, r: nat, k: nat, g: Group, it: Item): Memory
    requires WellFormed(c) && k < |c.plan|
  {
    var direct := Direct(c, r, g.peer);
    s.mem.(
    queue := if direct then s.mem.queue else Post(s, r, QpOf(c, g), WriteRequest(c, s, r, k, g, it)),
    recv :=
      if direct then PutRecv(s, g.peer, k, DestKey(c, s, r, k, g, it), Payload(c, s, r, k, g, it)) else s.mem.recv)
  }

  function SignalRequest(c: Config, r: nat, k: nat, g: Group): Request
    requires c.locals > 0 && k < |c.plan|
  {
    AtomicAdd(k, g, Word(c, k, r, g.local), SignalValue(c, r, k, g))
  }

  function DoSignal(c: Config, s: State, r: nat, k: nat, g: Group): Memory
    requires WellFormed(c) && k < |c.plan|
  {
    var direct := Direct(c, r, g.peer);
    s.mem.(
    queue := if direct then s.mem.queue else Post(s, r, QpOf(c, g), SignalRequest(c, r, k, g)),
    words := if direct then PutWord(s, g.peer, k % 2, Word(c, k, r, g.local), SignalValue(c, r, k, g)) else s.mem.words)
  }

  function DoRetire(c: Config, s: State, r: nat, k: nat, g: Group): Memory
    requires k < |c.plan|
  {
    var dispatch := c.plan[k].Dispatch?;
    s.mem.(
    ws := if dispatch then s.mem.ws[(r, Slots(g)) := 0][(r, Finished(g)) := 0] else AddWs(s, r, FLAG, -1),
    packedCount := if dispatch && g.peer == 0 then s.mem.packedCount[(r, g.local) := 0] else s.mem.packedCount)
  }

  function DoPoll(c: Config, s: State, r: nat, k: nat, g: Group): Memory
    requires k < |c.plan|
  {
    var dispatch := c.plan[k].Dispatch?;
    var n := -WordAt(s, r, k % 2, Word(c, k, g.peer, g.local)) - 1;
    var begin := PackedCount(s, r, g.local);
    s.mem.(
    packedCount := if dispatch then s.mem.packedCount[(r, g.local) := begin + n] else s.mem.packedCount,
    layout := if dispatch then s.mem.layout[(r, k, g) := Range(n, begin)] else s.mem.layout)
  }

  function DoCopy(s: State, r: nat, k: nat, g: Group, it: Item): Memory
  {
    var v := Read(RecvHalf(s, r, k % 2), SlotKey(g.local, g.peer, RowIndex(it)));
    s.mem.(packed := s.mem.packed[(r, k, g.local, Layout(s, r, k, g).begin + RowIndex(it)) := v])
  }

  function DoFold(c: Config, s: State, r: nat, k: nat, t: nat, j: nat): Memory
    requires c.locals > 0 && k < |c.plan|
  {
    var b := c.batch(r, Origin(c, k));
    var before := if j == 0 then c.zero else AccAt(s, r, k, t, j - 1);
    var e := TopkAt(b, t, j);
    var after :=
      if e < 0 then before
      else c.mac(before, WeightAt(b, t, j), RowOf(Read(RecvHalf(s, r, k % 2), OutKey(GroupOf(c, e), t))));
    s.mem.(acc := s.mem.acc[(r, k, t, j) := after])
  }

  function DoStore(c: Config, s: State, r: nat, k: nat, t: nat): Memory
    requires k < |c.plan|
  {
    var n := Width(c.batch(r, Origin(c, k)), t);
    s.mem.(out := s.mem.out[(r, k, t) := c.fin(if n == 0 then c.zero else AccAt(s, r, k, t, n - 1))])
  }

  function Effect(c: Config, s: State, ev: Event): Memory
    requires WellFormed(c) && ev.k < |c.plan|
  {
    var r, k := ev.r, ev.k;
    if ev.Clean? then s.mem.(words := PutWord(s, r, 1 - k % 2, ev.w, 0))
    else if ev.Stage? then
      s.mem.(send := PutSend(s, r, k, TokenKey(ev.t), TokenCell(ev.t, TokenAt(c.batch(r, k), ev.t))))
    else if ev.Claim? then DoClaim(s, r, k, ev.g, ev.it)
    else if ev.StageRow? then
      s.mem.(send := PutSend(s, r, k, SourceKey(c, s, r, k, ev.g, ev.it), Output(c, s, r, k, ev.g, ev.it)))
    else if ev.Send? then DoSend(c, s, r, k, ev.g, ev.it)
    else if ev.Finish? then s.mem.(ws := AddWs(s, r, Finished(ev.g), 1))
    else if ev.Tag? then s.mem.(ws := AddWs(s, r, Finished(ev.g), FINISHED_SUM_TAG))
    else if ev.Count? then s.mem.(ws := AddWs(s, r, Finished(ev.g), FINISHED_SUM_TAG - Sends(c, r, k, ev.g)))
    else if ev.Raise? then s.mem.(ws := AddWs(s, r, FLAG, c.experts))
    else if ev.Signal? then DoSignal(c, s, r, k, ev.g)
    else if ev.Retire? then DoRetire(c, s, r, k, ev.g)
    else if ev.Poll? then DoPoll(c, s, r, k, ev.g)
    else if ev.Copy? then DoCopy(s, r, k, ev.g, ev.it)
    else if ev.Fold? then DoFold(c, s, r, k, ev.t, ev.j)
    else if ev.Store? then DoStore(c, s, r, k, ev.t)
    else s.mem
  }

  /** What a launch step leaves alone. */
  lemma EffectFrame(c: Config, s: State, ev: Event)
    requires WellFormed(c) && ev.k < |c.plan|
    ensures var m := Effect(c, s, ev);
      && (ev.Claim? || ev.Finish? || ev.Tag? || ev.Count? || ev.Raise? || ev.Retire? || m.ws == s.mem.ws)
      && (ev.Clean? || ev.Signal? || m.words == s.mem.words)
      && (ev.Send? || m.recv == s.mem.recv)
      && (ev.Stage? || ev.StageRow? || m.send == s.mem.send)
      && (ev.Send? || ev.Signal? || m.queue == s.mem.queue)
      && (ev.Claim? || (m.slot == s.mem.slot && m.claims == s.mem.claims))
      && (ev.Retire? || ev.Poll? || m.packedCount == s.mem.packedCount)
      && (ev.Poll? || m.layout == s.mem.layout)
      && (ev.Copy? || m.packed == s.mem.packed)
      && (ev.Fold? || m.acc == s.mem.acc)
      && (ev.Store? || m.out == s.mem.out)
  {
    if ev.Claim? || ev.Stage? || ev.StageRow? || ev.Send? || ev.Finish? || ev.Clean? || ev.Tag? {
    } else if ev.Count? || ev.Raise? || ev.Signal? || ev.Retire? {
    } else {
    }
  }

  /** The steps a launch step records: itself and, when the warp copies directly, the arrival. */
  function Recorded(c: Config, ev: Event): set<Event>
  {
    if ev.Send? && Direct(c, ev.r, ev.g.peer) then {ev, Land(ev.r, ev.k, ev.g, ev.it)}
    else if ev.Signal? && Direct(c, ev.r, ev.g.peer) then {ev, LandSignal(ev.r, ev.k, ev.g)}
    else {ev}
  }

  function Arrival(r: nat, q: Request): Event
  {
    if q.Write? then Land(r, q.k, q.g, q.it) else LandSignal(r, q.k, q.g)
  }

  /** The fabric executes the request at the head of a queue pair, at the rank the host connected. */
  function DoDeliver(c: Config, s: State, r: nat, qp: nat): Memory
    requires WellFormed(c) && Queue(s, r, qp) != []
  {
    var q := Queue(s, r, qp);
    var peer := HostPeer(c, qp);
    var h := q[0];
    s.mem.(
    queue := s.mem.queue[(r, qp) := q[1..]],
    recv := if h.Write? then PutRecv(s, peer, h.k, h.dst, Read(SendHalf(s, r, h.k % 2), h.src)) else s.mem.recv,
    words :=
      if h.Write? then s.mem.words
      else PutWord(s, peer, h.k % 2, h.word, WordAt(s, peer, h.k % 2, h.word) + h.value))
  }

  ghost function Apply(c: Config, s: State, a: Action): State
    requires WellFormed(c) && Enabled(c, s, a)
  {
    if a.Do? then
      State(s.round, s.done + Recorded(c, a.ev), Effect(c, s, a.ev))
    else if a.Deliver? then
      State(s.round, s.done + {Arrival(a.r, Queue(s, a.r, a.qp)[0])}, DoDeliver(c, s, a.r, a.qp))
    else
      State(s.round[a.r := s.round[a.r] + 1], s.done, s.mem)
  }

  // ---- runs ----

  /** Before the first launch: workspace cleared, the signals of half 0 zero, nothing posted.
      Everything else, including the signals of half 1, holds arbitrary values. */
  ghost predicate Init(c: Config, s: State)
  {
    && |s.round| == c.ranks
    && (forall r :: 0 <= r < c.ranks ==> s.round[r] == 0)
    && s.done == {}
    && (forall r, w :: Ws(s, r, w) == 0)
    && (forall r, w :: WordAt(s, r, 0, w) == 0)
    && (forall r, qp :: Queue(s, r, qp) == [])
    && (forall r, k, g :: Claims(s, r, k, g) == [])
  }

  ghost predicate Next(c: Config, s: State, s': State)
    requires WellFormed(c)
  {
    exists a :: Enabled(c, s, a) && s' == Apply(c, s, a)
  }

  /** A run: an initial state followed by any number of steps in any order. */
  ghost predicate IsRun(c: Config, run: seq<State>)
    requires WellFormed(c)
  {
    && |run| > 0
    && (forall i :: 0 <= i < |run| ==> |run[i].round| == c.ranks)
    && Init(c, run[0])
    && (forall i: nat :: 0 < i < |run| ==> StepAt(c, run, i))
  }

  /** State i of the run follows from the one before it by one step. */
  ghost predicate StepAt(c: Config, run: seq<State>, i: nat)
    requires WellFormed(c) && 0 < i < |run|
  {
    Next(c, run[i - 1], run[i])
  }
}
