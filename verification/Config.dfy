/** The static side of an expert-parallel job: ranks, experts, the launch sequence every rank
    executes, and the routing table each rank passes to each dispatch launch. */
module Config {
  import Arith

  /** A payload row as it lies in memory. The protocol moves rows and never looks inside them. */
  type Row = seq<int>

  /** The per-token accumulator of the combine kernel. */
  type Acc = seq<real>

  /** An expert named the way the kernels name it: owning rank and index on that rank.
      It also names a warp group, whose flat index splits into the same two parts. */
  datatype Group = Group(peer: nat, local: nat)

  /** One kernel launch. Launch k works in half k % 2 and clears the signals of the other half.
      A combine launch names the dispatch launch whose packed rows it returns. */
  datatype Launch = Dispatch | Combine(of: nat)

  /** What one rank passes to one dispatch launch (and, with the weights, to its combine). */
  datatype Batch = Batch(x: seq<Row>, topk: seq<seq<int>>, weights: seq<seq<real>>)

  function TokenAt(b: Batch, t: nat): Row { if t < |b.x| then b.x[t] else [] }

  /** Number of top-k entries of token t. */
  function Width(b: Batch, t: nat): nat { if t < |b.topk| then |b.topk[t]| else 0 }

  function TopkAt(b: Batch, t: nat, j: nat): int { if j < Width(b, t) then b.topk[t][j] else -1 }

  function WeightAt(b: Batch, t: nat, j: nat): real
  {
    if t < |b.weights| && j < |b.weights[t]| then b.weights[t][j] else 0.0
  }

  datatype Config = Config(
    ranks: nat,
    locals: nat,                          // experts per rank
    experts: nat,
    maxTokens: nat,                       // num_max_dispatch_tokens_per_rank
    plan: seq<Launch>,
    batch: (nat, nat) -> Batch,           // (rank, dispatch launch)
    nvlink: (nat, nat) -> bool,           // nvlink_available
    expert: (Group, Row) -> Row,          // what is computed on packed rows between the kernels
    zero: Acc,
    mac: (Acc, real, Row) -> Acc,         // one multiply-accumulate of the weighted fold
    fin: Acc -> Row)

  const MAX_QP_COUNT: nat := 256

  ghost predicate WellFormedBatch(c: Config, b: Batch)
  {
    && |b.x| <= c.maxTokens
    && |b.topk| == |b.x|
    && |b.weights| == |b.x|
    && (forall t :: 0 <= t < |b.x| ==> |b.weights[t]| == |b.topk[t]|)
    && (forall t, j :: 0 <= t < |b.x| && 0 <= j < |b.topk[t]| ==> b.topk[t][j] < c.experts)
    && (forall t, i, j :: 0 <= t < |b.x| && 0 <= i < j < |b.topk[t]| && b.topk[t][i] >= 0 ==>
          b.topk[t][i] != b.topk[t][j])
  }

  /** What the kernels rely on and do not check. */
  ghost predicate WellFormed(c: Config)
  {
    && 1 <= c.ranks <= MAX_QP_COUNT
    && 1 <= c.locals
    && c.experts == c.ranks * c.locals
    && (forall k :: 0 <= k < |c.plan| && c.plan[k].Combine? ==>
          c.plan[k].of < k && c.plan[c.plan[k].of].Dispatch?)
    && (forall r, k :: 0 <= r < c.ranks && 0 <= k < |c.plan| && c.plan[k].Dispatch? ==>
          WellFormedBatch(c, c.batch(r, k)))
  }

  predicate IsGroup(c: Config, g: Group)
  {
    g.peer < c.ranks && g.local < c.locals
  }

  /** The split of a flat expert index into owner and local index. */
  function GroupOf(c: Config, e: nat): Group
    requires c.locals > 0
  {
    Group(e / c.locals, e % c.locals)
  }

  function Flat(c: Config, g: Group): nat
  {
    g.peer * c.locals + g.local
  }

  lemma GroupOfFlat(c: Config, e: nat)
    requires WellFormed(c) && e < c.experts
    ensures IsGroup(c, GroupOf(c, e)) && Flat(c, GroupOf(c, e)) == e
  {
    Arith.DivBound(e, c.locals, c.ranks);
  }

  lemma FlatGroupOf(c: Config, g: Group)
    requires WellFormed(c) && IsGroup(c, g)
    ensures Flat(c, g) < c.experts && GroupOf(c, Flat(c, g)) == g
  {
    Arith.RowMajor(g.peer, g.local, c.ranks, c.locals);
  }

  /** The signal word a rank's peer writes for a group: dispatch indexes by (local expert, source),
      combine by the source's global expert index. Both index the same array of `experts` words. */
  function Word(c: Config, k: nat, peer: nat, local: nat): nat
    requires k < |c.plan|
  {
    if c.plan[k].Dispatch? then local * c.ranks + peer else peer * c.locals + local
  }

  lemma WordInRange(c: Config, k: nat, g: Group)
    requires WellFormed(c) && k < |c.plan| && IsGroup(c, g)
    ensures Word(c, k, g.peer, g.local) < c.experts
  {
    Arith.RowMajor(g.local, g.peer, c.locals, c.ranks);
    Arith.RowMajor(g.peer, g.local, c.ranks, c.locals);
  }

  lemma WordInjective(c: Config, k: nat, g: Group, h: Group)
    requires WellFormed(c) && k < |c.plan| && IsGroup(c, g) && IsGroup(c, h)
    requires Word(c, k, g.peer, g.local) == Word(c, k, h.peer, h.local)
    ensures g == h
  {
    Arith.RowMajor(g.local, g.peer, c.locals, c.ranks);
    Arith.RowMajor(g.peer, g.local, c.ranks, c.locals);
    Arith.RowMajor(h.local, h.peer, c.locals, c.ranks);
    Arith.RowMajor(h.peer, h.local, c.ranks, c.locals);
  }

  // ---- blocks ----

  const GROUPS_PER_BLOCK: nat := 8
  const WARPS_PER_GROUP: nat := 4

  /** The blocks of a launch: enough for one warp group per expert. */
  function Blocks(c: Config): nat { (c.experts + GROUPS_PER_BLOCK - 1) / GROUPS_PER_BLOCK }

  lemma HasBlock(c: Config)
    requires WellFormed(c)
    ensures c.experts > 0 && Blocks(c) > 0
  {
    Arith.MulMono(1, c.ranks, c.locals);
  }

  /** The block in which the warp group of an expert runs. */
  function BlockOf(c: Config, g: Group): nat { Flat(c, g) / GROUPS_PER_BLOCK }

  /** The block that stages and sends token t. */
  function TokenBlock(c: Config, t: nat): nat
    requires WellFormed(c)
  {
    HasBlock(c);
    t % Blocks(c)
  }

  // ---- queue pairs ----

  function QpPerRank(c: Config): nat
    requires c.ranks > 0
  {
    MAX_QP_COUNT / c.ranks
  }

  /** USE_QP_COUNT of the host. */
  function QpCount(c: Config): nat
    requires c.ranks > 0
  {
    QpPerRank(c) * c.ranks
  }

  /** The queue pair the device picks for a destination group. */
  function QpOf(c: Config, g: Group): nat
    requires 1 <= c.ranks <= MAX_QP_COUNT
  {
    PositiveQpPerRank(c);
    g.peer * QpPerRank(c) + g.local % QpPerRank(c)
  }

  lemma PositiveQpPerRank(c: Config)
    requires 1 <= c.ranks <= MAX_QP_COUNT
    ensures QpPerRank(c) > 0 && QpCount(c) > 0
  {
    Arith.MulMono(1, QpPerRank(c), c.ranks);
  }

  function Product(a: nat, b: nat): (p: nat)
    ensures p == a * b
  {
    Arith.MulMono(0, a, b);
    a * b
  }

  /** The rank to which the host loop connects queue pair i. */
  function HostPeer(c: Config, i: nat): nat
    requires 1 <= c.ranks <= MAX_QP_COUNT
  {
    PositiveQpPerRank(c);
    Product(i, c.ranks) / QpCount(c)
  }

  /** Host and device agree: the device's queue pair exists, and the host connected it to the
      destination, although one side multiplies and the other divides. */
  lemma HostDeviceAgree(c: Config, g: Group)
    requires WellFormed(c) && IsGroup(c, g)
    ensures QpOf(c, g) < QpCount(c)
    ensures HostPeer(c, QpOf(c, g)) == g.peer
  {
    PositiveQpPerRank(c);
    AgreeOnPeer(g.peer, g.local, c.ranks, QpPerRank(c));
  }

  lemma AgreeOnPeer(peer: nat, local: nat, ranks: nat, q: nat)
    requires peer < ranks && q > 0
    ensures q * ranks > 0
    ensures peer * q + local % q < q * ranks
    ensures (peer * q + local % q) * ranks / (q * ranks) == peer
  {
    var m := local % q;
    Arith.RowMajor(peer, m, ranks, q);
    Arith.MulMono(m + 1, q, ranks);
    assert (m + 1) * ranks == m * ranks + ranks;
    Arith.MulMono(0, m, ranks);
    Arith.Distribute(peer * q, m, ranks);
    Arith.Associate(peer, q, ranks);
    Arith.DivModUnique((peer * q + m) * ranks, q * ranks, peer, m * ranks);
  }

  /** Copied by the warp itself (same rank, or a peer reachable over NVLink). */
  predicate Direct(c: Config, r: nat, peer: nat)
  {
    r == peer || c.nvlink(r, peer)
  }

  // ---- routing ----

  /** What a group has to send: in a dispatch launch a (token, top-k position) pair, in a combine
      launch a row of the range it got from a source rank. */
  datatype Item = Tok(t: nat, j: nat) | Out(row: nat)

  predicate IsTask(c: Config, r: nat, k: nat, g: Group, it: Item)
    requires c.locals > 0
  {
    var b := c.batch(r, k);
    && it.Tok?
    && it.t < |b.x|
    && it.j < Width(b, it.t)
    && TopkAt(b, it.t, it.j) >= 0
    && GroupOf(c, TopkAt(b, it.t, it.j)) == g
  }

  function Tasks(c: Config, r: nat, k: nat, g: Group): set<Item>
    requires c.locals > 0
  {
    var b := c.batch(r, k);
    set t, j | 0 <= t < |b.x| && 0 <= j < Width(b, t) && IsTask(c, r, k, g, Tok(t, j)) :: Tok(t, j)
  }

  /** Number of messages rank r sends to expert g in dispatch launch k. */
  function Sends(c: Config, r: nat, k: nat, g: Group): nat
    requires c.locals > 0
  {
    |Tasks(c, r, k, g)|
  }

  /** The dispatch launch whose routing launch k follows. */
  function Origin(c: Config, k: nat): nat
    requires k < |c.plan|
  {
    if c.plan[k].Dispatch? then k else c.plan[k].of
  }

  ghost predicate IsItem(c: Config, r: nat, k: nat, g: Group, it: Item)
    requires c.locals > 0 && k < |c.plan|
  {
    if c.plan[k].Dispatch? then
      IsTask(c, r, k, g, it)
    else
      it.Out? && it.row < Sends(c, g.peer, c.plan[k].of, Group(r, g.local))
  }

  lemma TaskInSet(c: Config, r: nat, k: nat, g: Group, it: Item)
    requires c.locals > 0
    ensures IsTask(c, r, k, g, it) <==> it in Tasks(c, r, k, g)
  {
  }

  // ---- the accumulator of combine ----

  /** What combine has accumulated for token t after its first n top-k entries. */
  function FoldTo(c: Config, r: nat, d: nat, t: nat, n: nat): Acc
    requires c.locals > 0
  {
    if n == 0 then c.zero
    else
      var b := c.batch(r, d);
      var acc := FoldTo(c, r, d, t, n - 1);
      var e := TopkAt(b, t, n - 1);
      if e < 0 then acc else c.mac(acc, WeightAt(b, t, n - 1), c.expert(GroupOf(c, e), TokenAt(b, t)))
  }

  /** What combine stores for token t. */
  function Folded(c: Config, r: nat, d: nat, t: nat): Row
    requires c.locals > 0
  {
    c.fin(FoldTo(c, r, d, t, Width(c.batch(r, d), t)))
  }
}
