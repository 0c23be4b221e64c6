/** What every step keeps. */
module Invariant {
  import opened Config
  import opened Protocol

  // ---- history ----

  /** Every recorded step belongs to its launch and to the routing table. */
  ghost predicate Fits(c: Config, ev: Event)
    requires WellFormed(c)
  {
    ev.r < c.ranks && ev.k < |c.plan| &&
    var r, k, dispatch := ev.r, ev.k, c.plan[ev.k].Dispatch?;
    if ev.Clean? then ev.w < c.experts
    else if ev.Stage? then dispatch && ev.t < |c.batch(r, k).x|
    else if ev.Raise? then !dispatch
    else if ev.Fold? then !dispatch && ev.t < |c.batch(r, Origin(c, k)).x| &&
        ev.j < Width(c.batch(r, Origin(c, k)), ev.t)
    else if ev.Store? then !dispatch && ev.t < |c.batch(r, Origin(c, k)).x|
    else
      && IsGroup(c, ev.g)
      && if ev.Claim? || ev.Finish? then dispatch && IsItem(c, r, k, ev.g, ev.it)
         else if ev.StageRow? then !dispatch && IsItem(c, r, k, ev.g, ev.it) && !Direct(c, r, ev.g.peer)
         else if ev.Send? || ev.Land? then IsItem(c, r, k, ev.g, ev.it)
         else if ev.Copy? then dispatch && IsArrival(c, r, k, ev.g, ev.it)
         else if ev.Tag? || ev.Count? then dispatch
         else true
  }

  /** A row that rank r receives from source g.peer for its local expert in dispatch launch k. */
  predicate IsArrival(c: Config, r: nat, k: nat, g: Group, it: Item)
    requires c.locals > 0
  {
    it.Out? && it.row < Sends(c, g.peer, k, Group(r, g.local))
  }

  ghost predicate AllSent(c: Config, done: set<Event>, r: nat, k: nat, g: Group)
    requires c.locals > 0 && k < |c.plan|
  {
    forall it :: IsItem(c, r, k, g, it) ==> Send(r, k, g, it) in done
  }

  ghost predicate AllLanded(c: Config, done: set<Event>, r: nat, k: nat, g: Group)
    requires c.locals > 0 && k < |c.plan|
  {
    forall it :: IsItem(c, r, k, g, it) ==> Land(r, k, g, it) in done
  }

  ghost predicate AllFinished(c: Config, done: set<Event>, r: nat, k: nat, g: Group)
    requires c.locals > 0 && k < |c.plan|
  {
    forall it :: IsItem(c, r, k, g, it) ==> Finish(r, k, g, it) in done
  }

  ghost predicate AllCopied(c: Config, done: set<Event>, r: nat, k: nat)
    requires c.locals > 0
  {
    forall g, it :: IsGroup(c, g) && IsArrival(c, r, k, g, it) ==> Copy(r, k, g, it) in done
  }

  ghost predicate AllStored(c: Config, done: set<Event>, r: nat, k: nat)
    requires k < |c.plan| && c.plan[k].Combine?
  {
    forall t: nat :: t < |c.batch(r, c.plan[k].of).x| ==> Store(r, k, t) in done
  }

  /** What must already have happened, on this rank or on another, when a step has. */
  ghost predicate Caused(c: Config, done: set<Event>, ev: Event)
    requires WellFormed(c) && Fits(c, ev)
  {
    var r, k, dispatch := ev.r, ev.k, c.plan[ev.k].Dispatch?;
    if ev.Claim? then Stage(r, k, ev.it.t) in done
    else if ev.Send? then
      if dispatch then Claim(r, k, ev.g, ev.it) in done
      else Direct(c, r, ev.g.peer) || StageRow(r, k, ev.g, ev.it) in done
    else if ev.Finish? then Send(r, k, ev.g, ev.it) in done
    else if ev.Tag? || ev.Raise? then AllClean(c, done, r, k)
    else if ev.Signal? then
      && AllClean(c, done, r, k)
      && AllSent(c, done, r, k, ev.g)
      && if dispatch then
           Count(r, k, ev.g) in done && Tag(r, k, ev.g) in done && AllFinished(c, done, r, k, ev.g)
         else
           Raise(r, k) in done
    else if ev.Retire? then Signal(r, k, ev.g) in done
    else if ev.Poll? then
      LandSignal(ev.g.peer, k, Group(r, ev.g.local)) in done && (dispatch ==> AllRetired(c, done, r, k))
    else if ev.Copy? then Poll(r, k, ev.g) in done
    else if ev.Fold? then
      && AllPolled(c, done, r, k) && AllRetired(c, done, r, k)
      && (ev.j > 0 ==> Fold(r, k, ev.t, ev.j - 1) in done)
    else if ev.Store? then AllPolled(c, done, r, k) && AllRetired(c, done, r, k)
    else if ev.Land? then Send(r, k, ev.g, ev.it) in done
    else if ev.LandSignal? then Signal(r, k, ev.g) in done && AllLanded(c, done, r, k, ev.g)
    else true
  }

  ghost predicate Complete(c: Config, done: set<Event>, r: nat, k: nat)
    requires WellFormed(c) && k < |c.plan|
  {
    && AllPolled(c, done, r, k)
    && AllRetired(c, done, r, k)
    && if c.plan[k].Dispatch? then AllCopied(c, done, r, k) else AllStored(c, done, r, k)
  }

  /** A step, if taken, is part of its launch and has its causes behind it. */
  ghost predicate Explained(c: Config, s: State, ev: Event)
    requires WellFormed(c) && |s.round| == c.ranks
  {
    ev in s.done ==> Fits(c, ev) && ev.k <= s.round[ev.r] && Caused(c, s.done, ev)
  }

  ghost predicate History(c: Config, s: State)
    requires WellFormed(c)
  {
    && |s.round| == c.ranks
    && (forall r :: 0 <= r < c.ranks ==> s.round[r] <= |c.plan|)
    && (forall ev :: Explained(c, s, ev))
    && (forall r: nat, k: nat :: r < c.ranks && k < s.round[r] ==> Complete(c, s.done, r, k))
  }

  // ---- counters ----

  /** Slot registers and the claim order describe each other: the i-th task to draw got slot i. */
  ghost predicate ClaimOrder(c: Config, s: State)
  {
    && (forall r: nat, k: nat, g, i :: 0 <= i < |Claims(s, r, k, g)| ==>
          var it := Claims(s, r, k, g)[i];
          Claim(r, k, g, it) in s.done && SlotReg(s, r, k, it) == i)
    && (forall r: nat, k: nat, g, it :: Claim(r, k, g, it) in s.done ==>
          && 0 <= SlotReg(s, r, k, it) < |Claims(s, r, k, g)|
          && Claims(s, r, k, g)[SlotReg(s, r, k, it)] == it)
  }

  ghost function FinishedTasks(c: Config, done: set<Event>, r: nat, k: nat, g: Group): set<Item>
    requires c.locals > 0
  {
    set it | it in Tasks(c, r, k, g) && Finish(r, k, g, it) in done
  }

  function Groups(c: Config): set<Group>
  {
    set p: nat, l: nat | p < c.ranks && l < c.locals :: Group(p, l)
  }

  ghost function RetiredGroups(c: Config, done: set<Event>, r: nat, k: nat): set<Group>
  {
    set g | g in Groups(c) && Retire(r, k, g) in done
  }

  /** The value each workspace word must have. */
  ghost function WsValue(c: Config, s: State, r: nat, w: WsWord): int
    requires WellFormed(c) && |s.round| == c.ranks && r < c.ranks
  {
    var k := s.round[r];
    if k >= |c.plan| || !IsGroup(c, w.g) then 0
    else if c.plan[k].Dispatch? then
      if Retire(r, k, w.g) in s.done then 0
      else
        if w.Slots? then |Claims(s, r, k, w.g)|
        else
          (if Tag(r, k, w.g) in s.done then FINISHED_SUM_TAG else 0) +
          (if Count(r, k, w.g) in s.done then FINISHED_SUM_TAG - Sends(c, r, k, w.g) else 0) +
          |FinishedTasks(c, s.done, r, k, w.g)|
    else if w == FLAG then
      (if Raise(r, k) in s.done then c.experts else 0) - |RetiredGroups(c, s.done, r, k)|
    else 0
  }

  ghost predicate Workspace(c: Config, s: State)
    requires WellFormed(c) && |s.round| == c.ranks
  {
    forall r: nat, w :: r < c.ranks ==> Ws(s, r, w) == WsValue(c, s, r, w)
  }

  // ---- receive side of dispatch ----

  /** The task whose message a source put in a slot. */
  ghost function TaskAt(s: State, src: nat, k: nat, g: Group, row: nat): Item
  {
    if row < |Claims(s, src, k, g)| then Claims(s, src, k, g)[row] else Out(row)
  }

  ghost predicate Disjoint(a: Range, b: Range)
  {
    a.begin + a.count <= b.begin || b.begin + b.count <= a.begin
  }

  ghost function PolledPeers(c: Config, done: set<Event>, r: nat, k: nat, local: nat): set<nat>
  {
    set p: nat | p < c.ranks && Poll(r, k, Group(p, local)) in done
  }

  ghost predicate Covered(c: Config, s: State, r: nat, k: nat, local: nat, pos: int)
  {
    exists p: nat :: p < c.ranks && Poll(r, k, Group(p, local)) in s.done &&
      var range := Layout(s, r, k, Group(p, local));
      range.begin <= pos < range.begin + range.count
  }

  /** Each polled source has the rows it sent, below the counter while the launch lasts. */
  ghost predicate RangesFit(c: Config, s: State)
    requires WellFormed(c) && |s.round| == c.ranks
  {
    forall r: nat, k: nat, g :: Poll(r, k, g) in s.done && r < c.ranks && k < |c.plan| && c.plan[k].Dispatch? ==>
      var range := Layout(s, r, k, g);
      && range.count == Sends(c, g.peer, k, Group(r, g.local))
      && 0 <= range.begin <= range.begin + range.count <= c.ranks * c.maxTokens
      && (s.round[r] == k ==> range.begin + range.count <= PackedCount(s, r, g.local))
  }

  ghost predicate RangesApart(c: Config, s: State)
  {
    forall r: nat, k: nat, g: Group, h: Group ::
      (k < |c.plan| && c.plan[k].Dispatch? && g.local == h.local && g != h &&
       Poll(r, k, g) in s.done && Poll(r, k, h) in s.done) ==>
        Disjoint(Layout(s, r, k, g), Layout(s, r, k, h))
  }

  ghost predicate Ranges(c: Config, s: State)
    requires WellFormed(c) && |s.round| == c.ranks
  {
    RangesFit(c, s) && RangesApart(c, s)
  }

  /** Once the packing counter of a local expert was reset, it bounds and covers what was packed. */
  ghost predicate PackedExpert(c: Config, s: State, r: nat, local: nat)
    requires |s.round| == c.ranks && r < c.ranks
  {
    var k := s.round[r];
    k < |c.plan| && c.plan[k].Dispatch? && Retire(r, k, Group(0, local)) in s.done ==>
      && 0 <= PackedCount(s, r, local) <= |PolledPeers(c, s.done, r, k, local)| * c.maxTokens
      && (forall pos :: 0 <= pos < PackedCount(s, r, local) ==> Covered(c, s, r, k, local, pos))
  }

  ghost predicate Packing(c: Config, s: State)
    requires |s.round| == c.ranks
  {
    forall r: nat, local: nat :: r < c.ranks && local < c.locals ==> PackedExpert(c, s, r, local)
  }

  /** The message of a task: token index and row. */
  ghost function Message(c: Config, r: nat, k: nat, it: Item): Cell
  {
    if it.Tok? then TokenCell(it.t, TokenAt(c.batch(r, k), it.t)) else Junk
  }

  ghost predicate PackedRow(c: Config, s: State, r: nat, k: nat, g: Group, it: Item)
  {
    Packed(s, r, k, g.local, Layout(s, r, k, g).begin + RowIndex(it))
    == Message(c, g.peer, k, TaskAt(s, g.peer, k, Group(r, g.local), RowIndex(it)))
  }

  ghost predicate PackedRows(c: Config, s: State)
  {
    forall r: nat, k: nat, g, it :: Copy(r, k, g, it) in s.done ==> PackedRow(c, s, r, k, g, it)
  }

  // ---- data in flight ----

  /** What item `it` of rank r carries. */
  ghost function Content(c: Config, s: State, r: nat, k: nat, g: Group, it: Item): Cell
    requires k < |c.plan|
  {
    if it.Tok? then Message(c, r, k, it)
    else
      var me := Group(r, g.local);
      RowCell(c.expert(me, RowOf(Message(c, g.peer, Origin(c, k), TaskAt(s, g.peer, Origin(c, k), me, RowIndex(it))))))
  }

  ghost predicate Holds(h: Half, k: nat, key: Key, v: Cell)
  {
    h.owner == k && key in h.cells && h.cells[key] == v
  }

  ghost predicate Staged(c: Config, s: State)
    requires WellFormed(c) && |s.round| == c.ranks
  {
    && (forall r: nat, k: nat, t: nat :: Stage(r, k, t) in s.done && r < c.ranks && s.round[r] <= k + 1 ==>
          Holds(SendHalf(s, r, k % 2), k, TokenKey(t), Message(c, r, k, Tok(t, 0))))
    && (forall r: nat, k: nat, g, it ::
          StageRow(r, k, g, it) in s.done && r < c.ranks && k < |c.plan| && s.round[r] <= k + 1 ==>
          Holds(SendHalf(s, r, k % 2), k, SourceKey(c, s, r, k, g, it), Content(c, s, r, k, g, it)))
  }

  ghost predicate RequestOk(c: Config, s: State, r: nat, qp: nat, q: Request)
    requires WellFormed(c)
  {
    && q.k < |c.plan|
    && IsGroup(c, q.g)
    && qp == QpOf(c, q.g)
    && !Direct(c, r, q.g.peer)
    && if q.Write? then
         && Send(r, q.k, q.g, q.it) in s.done && Land(r, q.k, q.g, q.it) !in s.done
         && q.src == SourceKey(c, s, r, q.k, q.g, q.it) && q.dst == DestKey(c, s, r, q.k, q.g, q.it)
       else
         && Signal(r, q.k, q.g) in s.done && LandSignal(r, q.k, q.g) !in s.done
         && q.word == Word(c, q.k, r, q.g.local) && q.value == SignalValue(c, r, q.k, q.g)
  }

  ghost predicate InOrder(a: Request, b: Request)
  {
    a != b && !(a.AtomicAdd? && b.Write? && a.k == b.k && a.g == b.g)
  }

  /** Queue pairs hold each request once, and no data behind the signal that announces it. */
  ghost predicate Queues(c: Config, s: State)
    requires WellFormed(c)
  {
    && (forall r: nat, qp: nat, i :: 0 <= i < |Queue(s, r, qp)| ==> RequestOk(c, s, r, qp, Queue(s, r, qp)[i]))
    && (forall r: nat, qp: nat, i, j :: 0 <= i < j < |Queue(s, r, qp)| ==>
          InOrder(Queue(s, r, qp)[i], Queue(s, r, qp)[j]))
  }

  /** Whatever was sent has landed or is queued. */
  ghost predicate InFlight(c: Config, s: State)
    requires WellFormed(c)
  {
    && (forall r: nat, k: nat, g, it :: Send(r, k, g, it) in s.done && k < |c.plan| ==>
          || Land(r, k, g, it) in s.done
          || WriteRequest(c, s, r, k, g, it) in Queue(s, r, QpOf(c, g)))
    && (forall r: nat, k: nat, g :: Signal(r, k, g) in s.done && k < |c.plan| ==>
          || LandSignal(r, k, g) in s.done
          || SignalRequest(c, r, k, g) in Queue(s, r, QpOf(c, g)))
  }

  /** Half k % 2 of rank d is ready for the signals of launch k at word w. */
  ghost predicate Armed(s: State, d: nat, k: nat, w: nat)
    requires d < |s.round|
  {
    s.round[d] == k || (k > 0 && s.round[d] == k - 1 && Clean(d, k - 1, w) in s.done)
  }

  /** An armed word is zero until its signal lands, and then reads exactly that signal. */
  ghost predicate Words(c: Config, s: State)
    requires WellFormed(c) && |s.round| == c.ranks
  {
    forall d: nat, k: nat, g ::
      d < c.ranks && k < |c.plan| && IsGroup(c, g) && Armed(s, d, k, Word(c, k, g.peer, g.local)) ==>
      WordAt(s, d, k % 2, Word(c, k, g.peer, g.local)) ==
      if LandSignal(g.peer, k, Group(d, g.local)) in s.done then SignalValue(c, g.peer, k, Group(d, g.local)) else 0
  }

  /** Landed data stays in place until its receiver has left the launch. */
  ghost predicate Received(c: Config, s: State)
    requires WellFormed(c) && |s.round| == c.ranks
  {
    forall r: nat, k: nat, g, it ::
      Land(r, k, g, it) in s.done && g.peer < c.ranks && k < |c.plan| && s.round[g.peer] <= k ==>
      Holds(RecvHalf(s, g.peer, k % 2), k, DestKey(c, s, r, k, g, it), Content(c, s, r, k, g, it))
  }

  // ---- results ----

  ghost predicate Results(c: Config, s: State)
    requires WellFormed(c)
  {
    && (forall r: nat, k: nat, t: nat, j: nat :: Fold(r, k, t, j) in s.done && k < |c.plan| ==>
          AccAt(s, r, k, t, j) == FoldTo(c, r, Origin(c, k), t, j + 1))
    && (forall r: nat, k: nat, t: nat :: Store(r, k, t) in s.done && k < |c.plan| ==>
          (r, k, t) in s.mem.out && s.mem.out[(r, k, t)] == Folded(c, r, Origin(c, k), t))
  }

  ghost predicate Inv(c: Config, s: State)
    requires WellFormed(c)
  {
    && History(c, s)
    && ClaimOrder(c, s)
    && Workspace(c, s)
    && Ranges(c, s)
    && Packing(c, s)
    && PackedRows(c, s)
    && Staged(c, s)
    && Queues(c, s)
    && InFlight(c, s)
    && Words(c, s)
    && Received(c, s)
    && Results(c, s)
  }

  lemma InitInv(c: Config, s: State)
    requires WellFormed(c) && Init(c, s)
    ensures Inv(c, s)
  {
    forall r: nat, w | r < c.ranks
      ensures Ws(s, r, w) == WsValue(c, s, r, w)
    {
      if |c.plan| > 0 && IsGroup(c, w.g) {
        assert FinishedTasks(c, s.done, r, 0, w.g) == {};
        assert RetiredGroups(c, s.done, r, 0) == {};
        assert Claims(s, r, 0, w.g) == [];
      }
    }
  }
}
