/** The protocol never deadlocks and every run is finite. */
module Progress {
  import Arith
  import opened Sets
  import opened Config
  import opened Protocol
  import opened Invariant
  import opened KeepHistory
  import opened KeepRanges
  import opened Lockstep
  import opened KeepInv
  import Warp

  ghost predicate CanStep(c: Config, s: State)
    requires WellFormed(c)
  {
    exists a :: Enabled(c, s, a)
  }

  /** Rank r is in a launch that does not trap. */
  ghost predicate Launched(c: Config, s: State, r: nat)
    requires WellFormed(c)
  {
    && |s.round| == c.ranks && r < c.ranks && s.round[r] < |c.plan|
    && (c.plan[s.round[r]].Dispatch? ==> Blocks(c) > 1)
  }

  ghost predicate Dispatching(c: Config, s: State, r: nat)
    requires WellFormed(c)
  {
    Launched(c, s, r) && c.plan[s.round[r]].Dispatch?
  }

  ghost predicate Combining(c: Config, s: State, r: nat)
    requires WellFormed(c)
  {
    Launched(c, s, r) && c.plan[s.round[r]].Combine?
  }

  /** A launch step that is ready and in turn was taken, or can be taken now. */
  lemma TakenOrCan(c: Config, s: State, ev: Event)
    requires WellFormed(c) && |s.round| == c.ranks
    requires ev.r < c.ranks && ev.k == s.round[ev.r] < |c.plan| && Ready(c, s, ev) && InTurn(c, s, ev)
    ensures ev in s.done || CanStep(c, s)
  {
    if ev !in s.done {
      assert Enabled(c, s, Do(ev));
    }
  }

  lemma {:induction false} CleanDone(c: Config, s: State, r: nat, w: nat)
    requires WellFormed(c) && Launched(c, s, r) && w < c.experts
    ensures Clean(r, s.round[r], w) in s.done || CanStep(c, s)
  {
    if w >= Warp.LANES {
      CleanDone(c, s, r, w - Warp.LANES);
    }
    if !CanStep(c, s) {
      TakenOrCan(c, s, Clean(r, s.round[r], w));
    }
  }

  lemma CleansDone(c: Config, s: State, r: nat)
    requires WellFormed(c) && Launched(c, s, r)
    ensures AllClean(c, s.done, r, s.round[r]) || CanStep(c, s)
  {
    forall w: nat | w < c.experts
      ensures Clean(r, s.round[r], w) in s.done || CanStep(c, s)
    {
      CleanDone(c, s, r, w);
    }
  }

  // ---- the send side of dispatch ----

  lemma TaskDone(c: Config, s: State, r: nat, g: Group, it: Item)
    requires WellFormed(c) && Dispatching(c, s, r) && IsTask(c, r, s.round[r], g, it)
    requires Stage(r, s.round[r], it.t) in s.done
    ensures Finish(r, s.round[r], g, it) in s.done || CanStep(c, s)
  {
    var k := s.round[r];
    assert WellFormedBatch(c, c.batch(r, k));
    GroupOfFlat(c, TopkAt(c.batch(r, k), it.t, it.j));
    TakenOrCan(c, s, Claim(r, k, g, it));
    if !CanStep(c, s) {
      TakenOrCan(c, s, Send(r, k, g, it));
      TakenOrCan(c, s, Finish(r, k, g, it));
    }
  }

  /** The token loop of a block gets through: each token after the one before it in the block. */
  lemma {:induction false} TokensDone(c: Config, s: State, r: nat, t: nat)
    requires WellFormed(c) && Dispatching(c, s, r) && t < |c.batch(r, s.round[r]).x|
    ensures TokenDone(c, s.done, r, s.round[r], t) || CanStep(c, s)
    decreases t
  {
    var k := s.round[r];
    if t >= Blocks(c) {
      TokensDone(c, s, r, t - Blocks(c));
    }
    if !CanStep(c, s) {
      TakenOrCan(c, s, Stage(r, k, t));
      forall g, j: nat | IsTask(c, r, k, g, Tok(t, j))
        ensures Finish(r, k, g, Tok(t, j)) in s.done
      {
        TaskDone(c, s, r, g, Tok(t, j));
      }
    }
  }

  lemma {:induction false} TagDone(c: Config, s: State, r: nat, g: Group)
    requires WellFormed(c) && Dispatching(c, s, r) && IsGroup(c, g)
    ensures Tag(r, s.round[r], g) in s.done || CanStep(c, s)
    decreases Flat(c, g)
  {
    forall h | IsGroup(c, h) && Flat(c, h) + Warp.LANES == Flat(c, g)
      ensures Tag(r, s.round[r], h) in s.done || CanStep(c, s)
    {
      TagDone(c, s, r, h);
    }
    CleansDone(c, s, r);
    if !CanStep(c, s) {
      TakenOrCan(c, s, Tag(r, s.round[r], g));
    }
  }

  lemma {:induction false} CountDone(c: Config, s: State, r: nat, g: Group)
    requires WellFormed(c) && Dispatching(c, s, r) && IsGroup(c, g)
    ensures Count(r, s.round[r], g) in s.done || CanStep(c, s)
    decreases Flat(c, g)
  {
    forall h | IsGroup(c, h) && BlockOf(c, h) == BlockOf(c, g) && Flat(c, h) < Flat(c, g)
      ensures Count(r, s.round[r], h) in s.done || CanStep(c, s)
    {
      CountDone(c, s, r, h);
    }
    forall h | IsGroup(c, h)
      ensures Tag(r, s.round[r], h) in s.done || CanStep(c, s)
    {
      TagDone(c, s, r, h);
    }
    if !CanStep(c, s) {
      TakenOrCan(c, s, Count(r, s.round[r], g));
    }
  }

  /** Every block gets to its barrier. */
  lemma BlocksDone(c: Config, s: State, r: nat, block: nat)
    requires WellFormed(c) && Dispatching(c, s, r) && !CanStep(c, s)
    ensures BlockDone(c, s.done, r, s.round[r], block)
  {
    forall t: nat | t < |c.batch(r, s.round[r]).x|
      ensures TokenDone(c, s.done, r, s.round[r], t)
    {
      TokensDone(c, s, r, t);
    }
    forall h | IsGroup(c, h)
      ensures Count(r, s.round[r], h) in s.done
    {
      CountDone(c, s, r, h);
    }
  }

  lemma GroupFinished(c: Config, s: State, r: nat, g: Group)
    requires WellFormed(c) && Dispatching(c, s, r) && !CanStep(c, s)
    ensures AllFinished(c, s.done, r, s.round[r], g)
  {
    forall it | IsItem(c, r, s.round[r], g, it)
      ensures Finish(r, s.round[r], g, it) in s.done
    {
      TokensDone(c, s, r, it.t);
      assert it == Tok(it.t, it.j);
    }
  }

  lemma DispatchRetires(c: Config, s: State, r: nat, g: Group)
    requires WellFormed(c) && History(c, s) && Workspace(c, s) && Dispatching(c, s, r) && IsGroup(c, g)
    ensures Retire(r, s.round[r], g) in s.done || CanStep(c, s)
  {
    var k := s.round[r];
    if Retire(r, k, g) !in s.done && !CanStep(c, s) {
      GroupFinished(c, s, r, g);
      TagDone(c, s, r, g);
      CountDone(c, s, r, g);
      FinishCounterExact(c, s, r, g);
      BlocksDone(c, s, r, BlockOf(c, g));
      TakenOrCan(c, s, Signal(r, k, g));
      TakenOrCan(c, s, Retire(r, k, g));
    }
  }

  // ---- the send side of combine ----

  lemma RaiseDone(c: Config, s: State, r: nat)
    requires WellFormed(c) && Combining(c, s, r)
    ensures Raise(r, s.round[r]) in s.done || CanStep(c, s)
  {
    CleansDone(c, s, r);
    if !CanStep(c, s) {
      TakenOrCan(c, s, Raise(r, s.round[r]));
    }
  }

  /** The rows of a warp go out one after the other. */
  lemma {:induction false} RowDone(c: Config, s: State, r: nat, g: Group, row: nat)
    requires WellFormed(c) && Combining(c, s, r) && IsGroup(c, g)
    requires row < Layout(s, r, c.plan[s.round[r]].of, g).count
    ensures Send(r, s.round[r], g, Out(row)) in s.done || CanStep(c, s)
    decreases row
  {
    var k := s.round[r];
    if row >= WARPS_PER_GROUP {
      RowDone(c, s, r, g, row - WARPS_PER_GROUP);
    }
    RaiseDone(c, s, r);
    if !CanStep(c, s) {
      if !Direct(c, r, g.peer) {
        TakenOrCan(c, s, StageRow(r, k, g, Out(row)));
      }
      TakenOrCan(c, s, Send(r, k, g, Out(row)));
    }
  }

  /** Every group gets to its barrier. */
  lemma GroupsSent(c: Config, s: State, r: nat, g: Group)
    requires WellFormed(c) && Combining(c, s, r) && IsGroup(c, g) && !CanStep(c, s)
    ensures GroupSent(c, s, r, s.round[r], g) && Raise(r, s.round[r]) in s.done
  {
    RaiseDone(c, s, r);
    forall row: nat | row < Layout(s, r, c.plan[s.round[r]].of, g).count
      ensures Send(r, s.round[r], g, Out(row)) in s.done
    {
      RowDone(c, s, r, g, row);
    }
  }

  lemma CombineRetires(c: Config, s: State, r: nat, g: Group)
    requires WellFormed(c) && History(c, s) && Workspace(c, s) && Combining(c, s, r) && IsGroup(c, g)
    ensures Retire(r, s.round[r], g) in s.done || CanStep(c, s)
  {
    var k := s.round[r];
    if Retire(r, k, g) !in s.done && !CanStep(c, s) {
      GroupsSent(c, s, r, g);
      CleanFlagExact(c, s, r, g);
      TakenOrCan(c, s, Signal(r, k, g));
      TakenOrCan(c, s, Retire(r, k, g));
    }
  }

  // ---- all ranks ----

  /** A rank at or past launch k has signalled every group of it, unless something can move. */
  lemma Signals(c: Config, s: State, r: nat, k: nat, g: Group)
    requires WellFormed(c) && Blocks(c) > 1 && History(c, s) && Workspace(c, s)
    requires r < c.ranks && k < |c.plan| && k <= s.round[r] && IsGroup(c, g)
    ensures (Retire(r, k, g) in s.done && Signal(r, k, g) in s.done) || CanStep(c, s)
  {
    if k < s.round[r] {
      assert Complete(c, s.done, r, k);
    } else if c.plan[k].Dispatch? {
      DispatchRetires(c, s, r, g);
    } else {
      CombineRetires(c, s, r, g);
    }
    Why(c, s, Retire(r, k, g));
  }

  /** With nothing left to deliver, every signal sent has landed. */
  lemma SignalLanded(c: Config, s: State, r: nat, k: nat, g: Group)
    requires WellFormed(c) && History(c, s) && InFlight(c, s)
    requires r < c.ranks && k < |c.plan| && IsGroup(c, g) && Signal(r, k, g) in s.done
    ensures LandSignal(r, k, g) in s.done || CanStep(c, s)
  {
    HostDeviceAgree(c, g);
    if LandSignal(r, k, g) !in s.done {
      assert Queue(s, r, QpOf(c, g)) != [];
      assert Enabled(c, s, Deliver(r, QpOf(c, g)));
    }
  }

  /** The rank furthest behind receives what it waits for. */
  lemma PollsDone(c: Config, s: State, r: nat, g: Group)
    requires WellFormed(c) && Blocks(c) > 1 && Inv(c, s) && r < c.ranks && s.round[r] < |c.plan| && IsGroup(c, g)
    requires forall p :: 0 <= p < c.ranks ==> s.round[r] <= s.round[p]
    ensures Poll(r, s.round[r], g) in s.done || CanStep(c, s)
  {
    var k := s.round[r];
    var me := Group(r, g.local);
    Signals(c, s, g.peer, k, me);
    if !CanStep(c, s) {
      SignalLanded(c, s, g.peer, k, me);
      assert Armed(s, r, k, Word(c, k, g.peer, g.local));
      forall h | IsGroup(c, h)
        ensures Retire(r, k, h) in s.done
      {
        Signals(c, s, r, k, h);
      }
      if c.plan[k].Combine? {
        GroupsSent(c, s, r, g);
      }
      TakenOrCan(c, s, Poll(r, k, g));
    }
  }

  /** All peers have been heard and all groups have gone: the last barrier of the launch is open. */
  ghost predicate Heard(c: Config, s: State, r: nat)
    requires WellFormed(c)
  {
    Launched(c, s, r) && AllPolled(c, s.done, r, s.round[r]) && AllRetired(c, s.done, r, s.round[r])
  }

  lemma {:induction false} CopyDone(c: Config, s: State, r: nat, g: Group, row: nat)
    requires WellFormed(c) && Heard(c, s, r) && Dispatching(c, s, r) && IsGroup(c, g)
    requires row < Layout(s, r, s.round[r], g).count
    ensures Copy(r, s.round[r], g, Out(row)) in s.done || CanStep(c, s)
    decreases row
  {
    if row >= WARPS_PER_GROUP {
      CopyDone(c, s, r, g, row - WARPS_PER_GROUP);
    }
    if !CanStep(c, s) {
      TakenOrCan(c, s, Copy(r, s.round[r], g, Out(row)));
    }
  }

  lemma {:induction false} FoldsDone(c: Config, s: State, r: nat, t: nat, j: nat)
    requires WellFormed(c) && Heard(c, s, r) && Combining(c, s, r)
    requires t < |c.batch(r, c.plan[s.round[r]].of).x| && j < Width(c.batch(r, c.plan[s.round[r]].of), t)
    requires t >= Blocks(c) ==> Store(r, s.round[r], t - Blocks(c)) in s.done
    ensures Fold(r, s.round[r], t, j) in s.done || CanStep(c, s)
    decreases j
  {
    if j > 0 {
      FoldsDone(c, s, r, t, j - 1);
    }
    if !CanStep(c, s) {
      TakenOrCan(c, s, Fold(r, s.round[r], t, j));
    }
  }

  lemma {:induction false} StoreDone(c: Config, s: State, r: nat, t: nat)
    requires WellFormed(c) && Heard(c, s, r) && Combining(c, s, r) && t < |c.batch(r, c.plan[s.round[r]].of).x|
    ensures Store(r, s.round[r], t) in s.done || CanStep(c, s)
    decreases t
  {
    HasBlock(c);
    if t >= Blocks(c) {
      StoreDone(c, s, r, t - Blocks(c));
    }
    if !CanStep(c, s) {
      forall j: nat | j < Width(c.batch(r, c.plan[s.round[r]].of), t)
        ensures Fold(r, s.round[r], t, j) in s.done
      {
        FoldsDone(c, s, r, t, j);
      }
      TakenOrCan(c, s, Store(r, s.round[r], t));
    }
  }

  lemma Returns(c: Config, s: State, r: nat)
    requires WellFormed(c) && Heard(c, s, r)
    ensures CanStep(c, s)
  {
    var k := s.round[r];
    if !CanStep(c, s) {
      if c.plan[k].Dispatch? {
        forall g, row: nat | IsGroup(c, g) && row < Layout(s, r, k, g).count
          ensures Copy(r, k, g, Out(row)) in s.done
        {
          CopyDone(c, s, r, g, row);
        }
      } else {
        forall t: nat | t < |c.batch(r, c.plan[k].of).x|
          ensures Store(r, k, t) in s.done
        {
          StoreDone(c, s, r, t);
        }
      }
      assert Enabled(c, s, Advance(r));
    }
  }

  lemma {:induction false} FurthestBehind(rounds: seq<nat>) returns (r: nat)
    requires rounds != []
    ensures r < |rounds| && forall p :: 0 <= p < |rounds| ==> rounds[r] <= rounds[p]
  {
    if |rounds| == 1 {
      r := 0;
    } else {
      var q := FurthestBehind(rounds[1..]);
      r := if rounds[0] <= rounds[q + 1] then 0 else q + 1;
      assert forall p :: 1 <= p < |rounds| ==> rounds[p] == rounds[1..][p - 1];
    }
  }

  /** No deadlock: with more than one block, which dispatch asserts, some step can be taken unless
      every rank has finished the plan. */
  lemma NoDeadlock(c: Config, s: State)
    requires WellFormed(c) && Blocks(c) > 1 && Inv(c, s)
    requires exists r :: 0 <= r < c.ranks && s.round[r] < |c.plan|
    ensures CanStep(c, s)
  {
    var r := FurthestBehind(s.round);
    var k := s.round[r];
    if !CanStep(c, s) {
      forall g | IsGroup(c, g)
        ensures Poll(r, k, g) in s.done && Retire(r, k, g) in s.done
      {
        PollsDone(c, s, r, g);
        Signals(c, s, r, k, g);
      }
      Returns(c, s, r);
    }
  }

  // ---- finiteness ----

  function Items(c: Config): set<Item>
  {
    (set r: nat, k: nat, t: nat, j: nat |
      r < c.ranks && k < |c.plan| && t < |c.batch(r, k).x| && j < Width(c.batch(r, k), t) :: Tok(t, j)) +
    (set row: nat | row < c.maxTokens :: Out(row))
  }

  /** Every step that can ever be recorded. */
  function Universe(c: Config): set<Event>
  {
    TokenEvents(c) + GroupEvents(c) + ItemEvents(c)
  }

  function TokenEvents(c: Config): set<Event>
  {
    (set r: nat, k: nat, w: nat | r < c.ranks && k < |c.plan| && w < c.experts :: Clean(r, k, w)) +
    (set r: nat, k: nat, t: nat | r < c.ranks && k < |c.plan| && t < c.maxTokens :: Stage(r, k, t)) +
    (set r: nat, k: nat, t: nat | r < c.ranks && k < |c.plan| && t < c.maxTokens :: Store(r, k, t)) +
    (set r: nat, k: nat, t: nat, j: nat |
       r < c.ranks && k < |c.plan| && t < c.maxTokens && j < Width(c.batch(r, Origin(c, k)), t) :: Fold(r, k, t, j)) +
    (set r: nat, k: nat | r < c.ranks && k < |c.plan| :: Raise(r, k))
  }

  function GroupEvents(c: Config): set<Event>
  {
    (set r: nat, k: nat, g | r < c.ranks && k < |c.plan| && g in Groups(c) :: Tag(r, k, g)) +
    (set r: nat, k: nat, g | r < c.ranks && k < |c.plan| && g in Groups(c) :: Count(r, k, g)) +
    (set r: nat, k: nat, g | r < c.ranks && k < |c.plan| && g in Groups(c) :: Signal(r, k, g)) +
    (set r: nat, k: nat, g | r < c.ranks && k < |c.plan| && g in Groups(c) :: Retire(r, k, g)) +
    (set r: nat, k: nat, g | r < c.ranks && k < |c.plan| && g in Groups(c) :: Poll(r, k, g)) +
    (set r: nat, k: nat, g | r < c.ranks && k < |c.plan| && g in Groups(c) :: LandSignal(r, k, g))
  }

  function ItemEvents(c: Config): set<Event>
  {
    (set r: nat, k: nat, g, it | r < c.ranks && k < |c.plan| && g in Groups(c) && it in Items(c) ::
        Claim(r, k, g, it)) +
    (set r: nat, k: nat, g, it | r < c.ranks && k < |c.plan| && g in Groups(c) && it in Items(c) ::
        StageRow(r, k, g, it)) +
    (set r: nat, k: nat, g, it | r < c.ranks && k < |c.plan| && g in Groups(c) && it in Items(c) :: Send(r, k, g, it)) +
    (set r: nat, k: nat, g, it | r < c.ranks && k < |c.plan| && g in Groups(c) && it in Items(c) ::
        Finish(r, k, g, it)) +
    (set r: nat, k: nat, g, it | r < c.ranks && k < |c.plan| && g in Groups(c) && it in Items(c) :: Copy(r, k, g, it)) +
    (set r: nat, k: nat, g, it | r < c.ranks && k < |c.plan| && g in Groups(c) && it in Items(c) :: Land(r, k, g, it))
  }

  lemma ItemInUniverse(c: Config, r: nat, k: nat, g: Group, it: Item)
    requires WellFormed(c) && r < c.ranks && k < |c.plan| && IsGroup(c, g)
    requires IsItem(c, r, k, g, it) || (c.plan[k].Dispatch? && IsArrival(c, r, k, g, it))
    ensures it in Items(c)
  {
    if it.Out? {
      SendsBounded(c, g.peer, Origin(c, k), Group(r, g.local));
    }
  }

  predicate AboutItem(ev: Event) { ev.Claim? || ev.StageRow? || ev.Send? || ev.Finish? || ev.Copy? || ev.Land? }

  predicate AboutGroup(ev: Event) { ev.Tag? || ev.Count? || ev.Signal? || ev.Retire? || ev.Poll? || ev.LandSignal? }

  lemma TokenInUniverse(c: Config, ev: Event)
    requires WellFormed(c) && Fits(c, ev) && !AboutItem(ev) && !AboutGroup(ev)
    ensures ev in TokenEvents(c)
  {
    assert WellFormedBatch(c, c.batch(ev.r, Origin(c, ev.k)));
  }

  lemma GroupInUniverse(c: Config, ev: Event)
    requires WellFormed(c) && Fits(c, ev) && AboutGroup(ev)
    ensures ev in GroupEvents(c)
  {
  }

  lemma InUniverse(c: Config, ev: Event)
    requires WellFormed(c) && Fits(c, ev)
    ensures ev in Universe(c)
  {
    if AboutItem(ev) {
      ItemInUniverse(c, ev.r, ev.k, ev.g, ev.it);
      assert ev in ItemEvents(c);
    } else if AboutGroup(ev) {
      GroupInUniverse(c, ev);
    } else {
      TokenInUniverse(c, ev);
    }
  }

  function Total(rounds: seq<nat>): nat
  {
    if rounds == [] then 0 else rounds[0] + Total(rounds[1..])
  }

  lemma {:induction false} TotalBump(rounds: seq<nat>, r: nat)
    requires r < |rounds|
    ensures Total(rounds[r := rounds[r] + 1]) == Total(rounds) + 1
  {
    var next := rounds[r := rounds[r] + 1];
    if r == 0 {
      assert next[1..] == rounds[1..];
    } else {
      TotalBump(rounds[1..], r - 1);
      assert next[1..] == rounds[1..][r - 1 := rounds[r] + 1];
    }
  }

  lemma {:induction false} TotalBound(rounds: seq<nat>, n: nat)
    requires forall r :: 0 <= r < |rounds| ==> rounds[r] <= n
    ensures Total(rounds) <= |rounds| * n
  {
    if rounds != [] {
      TotalBound(rounds[1..], n);
      Arith.Distribute(|rounds| - 1, 1, n);
    }
  }

  ghost function Measure(s: State): nat
  {
    |s.done| + Total(s.round)
  }

  lemma MeasureGrows(c: Config, s: State, s': State)
    requires WellFormed(c) && Inv(c, s) && Next(c, s, s')
    ensures Measure(s') > Measure(s)
  {
    var a :| Enabled(c, s, a) && s' == Apply(c, s, a);
    if a.Advance? {
      TotalBump(s.round, a.r);
    } else {
      var ev := NewEvent(c, s, a);
      SubsetSize(s.done, s'.done);
    }
  }

  /** Every step but an advance records something new. */
  lemma NewEvent(c: Config, s: State, a: Action) returns (ev: Event)
    requires WellFormed(c) && Queues(c, s) && Enabled(c, s, a) && !a.Advance?
    ensures ev in Apply(c, s, a).done && ev !in s.done
    ensures s.done <= Apply(c, s, a).done && Apply(c, s, a).round == s.round
  {
    if a.Do? {
      ev := a.ev;
    } else {
      var q := Queue(s, a.r, a.qp)[0];
      assert RequestOk(c, s, a.r, a.qp, q);
      ev := Arrival(a.r, q);
    }
  }

  lemma MeasureBound(c: Config, s: State)
    requires WellFormed(c) && History(c, s)
    ensures Measure(s) <= |Universe(c)| + c.ranks * |c.plan|
  {
    forall ev | ev in s.done
      ensures ev in Universe(c)
    {
      Why(c, s, ev);
      InUniverse(c, ev);
    }
    SubsetSize(s.done, Universe(c));
    TotalBound(s.round, |c.plan|);
  }

  lemma {:induction false} RunMeasure(c: Config, run: seq<State>, i: nat)
    requires WellFormed(c) && IsRun(c, run) && i < |run|
    ensures Measure(run[i]) >= i
  {
    if i > 0 {
      RunMeasure(c, run, i - 1);
      RunInv(c, run, i - 1);
      assert StepAt(c, run, i);
      MeasureGrows(c, run[i - 1], run[i]);
    }
  }

  /** No run goes on forever, under any schedule. */
  lemma RunsAreFinite(c: Config, run: seq<State>)
    requires WellFormed(c) && IsRun(c, run)
    ensures |run| <= |Universe(c)| + c.ranks * |c.plan| + 1
  {
    var last := |run| - 1;
    RunMeasure(c, run, last);
    RunInv(c, run, last);
    MeasureBound(c, run[last]);
  }
}
