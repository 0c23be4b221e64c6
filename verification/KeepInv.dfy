/** The invariant holds in every state of every run. */
module KeepInv {
  import opened Config
  import opened Protocol
  import opened Invariant
  import opened KeepHistory
  import opened KeepCounters
  import opened KeepRanges
  import opened Stable
  import opened Lockstep
  import opened KeepWords
  import opened KeepData
  import opened KeepFlight
  import opened KeepResults

  /** Rank ev.r took the launch step ev. */
  ghost predicate Took(c: Config, s: State, s': State, ev: Event)
    requires WellFormed(c) && |s.round| == c.ranks
  {
    && !ev.Land? && !ev.LandSignal?
    && Fits(c, ev) && Caused(c, s.done, ev) && ev.k == s.round[ev.r] && ev !in s.done
    && s'.round == s.round && s'.done == s.done + Recorded(c, ev) && s'.mem == Effect(c, s, ev)
  }

  lemma SameItemIfEqual(c: Config, s: State, s': State, r: nat, k: nat, g: Group, it: Item)
    requires k < |c.plan|
    requires s'.mem.layout == s.mem.layout && s'.mem.packed == s.mem.packed
    requires s'.mem.slot == s.mem.slot && s'.mem.claims == s.mem.claims
    ensures SameItem(c, s, s', r, k, g, it)
  {
    assert Layout(s', r, Origin(c, k), g) == Layout(s, r, Origin(c, k), g);
    assert SlotReg(s', r, k, it) == SlotReg(s, r, k, it);
    assert Claims(s', g.peer, Origin(c, k), Group(r, g.local)) == Claims(s, g.peer, Origin(c, k), Group(r, g.local));
  }

  lemma PackedRowsDo(c: Config, s: State, s': State, ev: Event)
    requires WellFormed(c) && History(c, s) && ClaimOrder(c, s) && Ranges(c, s) && PackedRows(c, s) && Received(c, s)
    requires Took(c, s, s', ev) && Grows(s, s')
    ensures PackedRows(c, s')
  {
    EffectFrame(c, s, ev);
    if ev.Copy? {
      PackedRowsCopy(c, s, s', ev.r, ev.k, ev.g, ev.it);
    } else {
      PackedRowsFrame(c, s, s');
    }
  }

  lemma StagedDo(c: Config, s: State, s': State, ev: Event)
    requires WellFormed(c) && History(c, s) && ClaimOrder(c, s) && Ranges(c, s) && PackedRows(c, s) && Staged(c, s)
    requires Took(c, s, s', ev) && Grows(s, s')
    ensures Staged(c, s')
  {
    EffectFrame(c, s, ev);
    if ev.Stage? {
      StagedStage(c, s, s', ev.r, ev.k, ev.t);
    } else if ev.StageRow? {
      CombineItem(c, s, ev.r, ev.k, ev.g, ev.it);
      SameItemIfEqual(c, s, s', ev.r, ev.k, ev.g, ev.it);
      StagedStageRow(c, s, s', ev.r, ev.k, ev.g, ev.it);
    } else {
      StagedFrame(c, s, s');
    }
  }

  /** A direct copy or store lands nothing that is still queued. */
  lemma DirectNotQueued(c: Config, s: State, s': State, ev: Event)
    requires WellFormed(c) && |s.round| == c.ranks && Queues(c, s) && Took(c, s, s', ev)
    ensures forall r: nat, qp: nat, i :: 0 <= i < |Queue(s, r, qp)| ==> Arrival(r, Queue(s, r, qp)[i]) !in s'.done
  {
    forall r: nat, qp: nat, i | 0 <= i < |Queue(s, r, qp)|
      ensures Arrival(r, Queue(s, r, qp)[i]) !in s'.done
    {
      assert RequestOk(c, s, r, qp, Queue(s, r, qp)[i]);
    }
  }

  lemma QueuesDo(c: Config, s: State, s': State, ev: Event)
    requires WellFormed(c) && History(c, s) && ClaimOrder(c, s) && Queues(c, s)
    requires Took(c, s, s', ev) && Grows(s, s')
    ensures Queues(c, s')
  {
    EffectFrame(c, s, ev);
    if ev.Send? && !Direct(c, ev.r, ev.g.peer) {
      SameItemIfEqual(c, s, s', ev.r, ev.k, ev.g, ev.it);
      QueuesSend(c, s, s', ev.r, ev.k, ev.g, ev.it);
    } else if ev.Signal? && !Direct(c, ev.r, ev.g.peer) {
      QueuesSignal(c, s, s', ev.r, ev.k, ev.g);
    } else {
      DirectNotQueued(c, s, s', ev);
      QueuesFrame(c, s, s');
    }
  }

  lemma QueuesOnlyGrow(c: Config, s: State, s': State, ev: Event)
    requires WellFormed(c) && |s.round| == c.ranks && Took(c, s, s', ev)
    ensures forall r: nat, qp: nat, q :: q in Queue(s, r, qp) ==> q in Queue(s', r, qp)
    ensures ev.Send? ==> ItemInFlight(c, s', ev.r, ev.k, ev.g, ev.it)
    ensures ev.Signal? ==> SignalInFlight(c, s', ev.r, ev.k, ev.g)
  {
    EffectFrame(c, s, ev);
    if (ev.Send? || ev.Signal?) && !Direct(c, ev.r, ev.g.peer) {
      if ev.Send? {
        SameItemIfEqual(c, s, s', ev.r, ev.k, ev.g, ev.it);
      }
      var qp := QpOf(c, ev.g);
      var q := if ev.Send? then WriteRequest(c, s, ev.r, ev.k, ev.g, ev.it) else SignalRequest(c, ev.r, ev.k, ev.g);
      assert Queue(s', ev.r, qp) == Queue(s, ev.r, qp) + [q];
      assert Queue(s', ev.r, qp)[|Queue(s, ev.r, qp)|] == q;
      assert forall p: nat, x: nat :: (p, x) != (ev.r, qp) ==> Queue(s', p, x) == Queue(s, p, x);
    } else {
      assert forall p, x :: Queue(s', p, x) == Queue(s, p, x);
    }
  }

  lemma WordsDo(c: Config, s: State, s': State, ev: Event)
    requires WellFormed(c) && History(c, s) && Words(c, s) && Took(c, s, s', ev)
    ensures Words(c, s')
  {
    EffectFrame(c, s, ev);
    if ev.Clean? {
      WordsClean(c, s, s', ev.r, ev.k, ev.w);
    } else if ev.Signal? && Direct(c, ev.r, ev.g.peer) {
      Why(c, s, LandSignal(ev.r, ev.k, ev.g));
      WordsLand(c, s, s', ev.r, ev.k, ev.g);
    } else {
      WordsFrame(c, s, s');
    }
  }

  lemma ReceivedDirect(c: Config, s: State, s': State, ev: Event)
    requires WellFormed(c) && History(c, s) && ClaimOrder(c, s) && PackedRows(c, s) && Staged(c, s) && Received(c, s)
    requires Took(c, s, s', ev) && Grows(s, s') && ev.Send? && Direct(c, ev.r, ev.g.peer)
    requires s'.mem.layout == s.mem.layout && s'.mem.packed == s.mem.packed
    requires s'.mem.slot == s.mem.slot && s'.mem.claims == s.mem.claims
    ensures Received(c, s')
  {
    Why(c, s, Land(ev.r, ev.k, ev.g, ev.it));
    PayloadIsContent(c, s, ev.r, ev.k, ev.g, ev.it);
    SameItemIfEqual(c, s, s', ev.r, ev.k, ev.g, ev.it);
    ReceivedLand(c, s, s', ev.r, ev.k, ev.g, ev.it);
  }

  lemma ReceivedDo(c: Config, s: State, s': State, ev: Event)
    requires WellFormed(c) && History(c, s) && ClaimOrder(c, s) && PackedRows(c, s) && Staged(c, s) && Received(c, s)
    requires Took(c, s, s', ev) && Grows(s, s')
    ensures Received(c, s')
  {
    EffectFrame(c, s, ev);
    if ev.Send? && Direct(c, ev.r, ev.g.peer) {
      ReceivedDirect(c, s, s', ev);
    } else {
      ReceivedFrame(c, s, s');
    }
  }

  /** The data side of a launch step. */
  lemma DataDo(c: Config, s: State, s': State, ev: Event)
    requires WellFormed(c) && Inv(c, s) && Took(c, s, s', ev) && Grows(s, s')
    ensures PackedRows(c, s') && Staged(c, s') && Received(c, s')
  {
    PackedRowsDo(c, s, s', ev);
    StagedDo(c, s, s', ev);
    ReceivedDo(c, s, s', ev);
  }

  /** The fabric side of a launch step. */
  lemma FabricDo(c: Config, s: State, s': State, ev: Event)
    requires WellFormed(c) && Inv(c, s) && Took(c, s, s', ev) && Grows(s, s')
    ensures Queues(c, s') && InFlight(c, s') && Words(c, s')
  {
    QueuesDo(c, s, s', ev);
    QueuesOnlyGrow(c, s, s', ev);
    InFlightGrows(c, s, s', ev);
    WordsDo(c, s, s', ev);
  }

  /** The bookkeeping side of a launch step: history, counters and ranges. */
  lemma BooksDo(c: Config, s: State, s': State, ev: Event)
    requires WellFormed(c) && Inv(c, s) && Enabled(c, s, Do(ev)) && s' == Apply(c, s, Do(ev))
    ensures Took(c, s, s', ev) && Grows(s, s')
    ensures History(c, s') && ClaimOrder(c, s') && Workspace(c, s') && Ranges(c, s') && Packing(c, s')
  {
    DoCaused(c, s, ev);
    HistoryRecords(c, s, s', ev);
    KeepClaimOrder(c, s, Do(ev));
    WorkspaceDo(c, s, s', ev);
    if ev.Poll? {
      PollCaused(c, s, ev.r, ev.k, ev.g);
    }
    RangesDo(c, s, s', ev);
    DoGrows(c, s, s', ev);
  }

  lemma KeepDo(c: Config, s: State, ev: Event)
    requires WellFormed(c) && Inv(c, s) && Enabled(c, s, Do(ev))
    ensures Inv(c, Apply(c, s, Do(ev)))
  {
    var s' := Apply(c, s, Do(ev));
    BooksDo(c, s, s', ev);
    DataDo(c, s, s', ev);
    FabricDo(c, s, s', ev);
    ResultsDo(c, s, s', ev);
  }

  lemma KeepAdvance(c: Config, s: State, r: nat)
    requires WellFormed(c) && Inv(c, s) && Enabled(c, s, Advance(r))
    ensures Inv(c, Apply(c, s, Advance(r)))
  {
    var s' := Apply(c, s, Advance(r));
    AdvanceCompletes(c, s, r);
    HistoryAdvances(c, s, s', r);
    ClaimOrderFrame(c, s, s');
    WorkspaceAdvance(c, s, s', r);
    RangesAdvance(c, s, s', r);
    PackingAdvance(c, s, s', r);
    GrowsIfEqual(s, s');
    PackedRowsFrame(c, s, s');
    StagedFrame(c, s, s');
    assert forall p: nat, qp: nat, i :: 0 <= i < |Queue(s, p, qp)| ==> RequestOk(c, s, p, qp, Queue(s, p, qp)[i]);
    QueuesFrame(c, s, s');
    InFlightAdvance(c, s, s');
    WordsAdvance(c, s, s', r);
    ReceivedFrame(c, s, s');
    ResultsFrame(c, s, s');
  }

  lemma InFlightAdvance(c: Config, s: State, s': State)
    requires WellFormed(c) && InFlight(c, s) && s'.done == s.done && s'.mem == s.mem
    ensures InFlight(c, s')
  {
    assert forall r, qp :: Queue(s', r, qp) == Queue(s, r, qp);
    forall r: nat, k: nat, g, it | k < |c.plan|
      ensures WriteRequest(c, s', r, k, g, it) == WriteRequest(c, s, r, k, g, it)
    {
      SameItemIfEqual(c, s, s', r, k, g, it);
    }
  }

  /** What the delivered request does at the rank the host connected its queue pair to. */
  lemma DeliverLands(c: Config, s: State, s': State, r: nat, qp: nat)
    requires WellFormed(c) && History(c, s) && ClaimOrder(c, s) && Staged(c, s) && Queues(c, s) && Words(c, s)
    requires Queue(s, r, qp) != [] && s'.mem == DoDeliver(c, s, r, qp)
    ensures var q := Queue(s, r, qp)[0];
      && RequestOk(c, s, r, qp, q)
      && HostPeer(c, qp) == q.g.peer
      && (q.Write? ==>
            && s'.mem.words == s.mem.words
            && s'.mem.recv ==
               PutRecv(s, q.g.peer, q.k, DestKey(c, s, r, q.k, q.g, q.it), Content(c, s, r, q.k, q.g, q.it)))
      && (q.AtomicAdd? ==>
            && s'.mem.recv == s.mem.recv
            && s'.mem.words == PutWord(s, q.g.peer, q.k % 2, Word(c, q.k, r, q.g.local), SignalValue(c, r, q.k, q.g)))
  {
    var q := Queue(s, r, qp)[0];
    assert RequestOk(c, s, r, qp, q);
    HostDeviceAgree(c, q.g);
    if q.Write? {
      SourceIsContent(c, s, r, qp, q);
    } else {
      Why(c, s, Signal(r, q.k, q.g));
      LandsOnZero(c, s, r, q.k, q.g);
    }
  }

  lemma DeliverWrite(c: Config, s: State, s': State, r: nat, qp: nat, q: Request)
    requires WellFormed(c) && Inv(c, s) && Grows(s, s') && q.Write? && RequestOk(c, s, r, qp, q)
    requires s'.round == s.round && s'.done == s.done + {Land(r, q.k, q.g, q.it)}
    requires s'.mem.layout == s.mem.layout && s'.mem.packed == s.mem.packed
    requires s'.mem.slot == s.mem.slot && s'.mem.claims == s.mem.claims && s'.mem.words == s.mem.words
    requires q.k < |c.plan|
    requires s'.mem.recv ==
             PutRecv(s, q.g.peer, q.k, DestKey(c, s, r, q.k, q.g, q.it), Content(c, s, r, q.k, q.g, q.it))
    ensures Words(c, s') && Received(c, s')
  {
    Why(c, s, Send(r, q.k, q.g, q.it));
    SameItemIfEqual(c, s, s', r, q.k, q.g, q.it);
    WordsFrame(c, s, s');
    ReceivedLand(c, s, s', r, q.k, q.g, q.it);
  }

  lemma DeliverMemory(c: Config, s: State, s': State, r: nat, qp: nat)
    requires WellFormed(c) && Inv(c, s) && Queue(s, r, qp) != []
    requires s'.round == s.round && s'.done == s.done + {Arrival(r, Queue(s, r, qp)[0])} &&
        s'.mem == DoDeliver(c, s, r, qp)
    requires Grows(s, s')
    ensures Words(c, s') && Received(c, s')
  {
    var q := Queue(s, r, qp)[0];
    DeliverLands(c, s, s', r, qp);
    if q.Write? {
      DeliverWrite(c, s, s', r, qp, q);
    } else {
      Why(c, s, Signal(r, q.k, q.g));
      WordsLand(c, s, s', r, q.k, q.g);
      ReceivedFrame(c, s, s');
    }
  }

  /** What a delivery leaves alone: everything but a receive buffer, the signal words and one queue. */
  lemma DeliverFrame(c: Config, s: State, s': State, r: nat, qp: nat)
    requires WellFormed(c) && Inv(c, s) && Queue(s, r, qp) != []
    requires s'.round == s.round && s'.done == s.done + {Arrival(r, Queue(s, r, qp)[0])} &&
        s'.mem == DoDeliver(c, s, r, qp)
    ensures ClaimOrder(c, s') && Workspace(c, s') && Ranges(c, s') && Packing(c, s')
    ensures Grows(s, s') && PackedRows(c, s') && Staged(c, s') && Results(c, s')
  {
    ClaimOrderFrame(c, s, s');
    WorkspaceFrame(c, s, s');
    RangesFrame(c, s, s');
    PackingFrame(c, s, s');
    GrowsIfEqual(s, s');
    PackedRowsFrame(c, s, s');
    StagedFrame(c, s, s');
    ResultsFrame(c, s, s');
  }

  lemma KeepDeliver(c: Config, s: State, r: nat, qp: nat)
    requires WellFormed(c) && Inv(c, s) && Enabled(c, s, Deliver(r, qp))
    ensures Inv(c, Apply(c, s, Deliver(r, qp)))
  {
    var s' := Apply(c, s, Deliver(r, qp));
    DeliverCaused(c, s, r, qp);
    HistoryRecords(c, s, s', Arrival(r, Queue(s, r, qp)[0]));
    DeliverFrame(c, s, s', r, qp);
    QueuesDeliver(c, s, s', r, qp);
    InFlightDeliver(c, s, s', r, qp);
    DeliverMemory(c, s, s', r, qp);
  }

  /** One step of any rank or of the fabric. */
  lemma KeepInv(c: Config, s: State, s': State)
    requires WellFormed(c) && Inv(c, s) && Next(c, s, s')
    ensures Inv(c, s')
  {
    var a :| Enabled(c, s, a) && s' == Apply(c, s, a);
    if a.Do? {
      KeepDo(c, s, a.ev);
    } else if a.Deliver? {
      KeepDeliver(c, s, a.r, a.qp);
    } else {
      KeepAdvance(c, s, a.r);
    }
  }

  /** Every state of every run satisfies the invariant. */
  lemma {:induction false} RunInv(c: Config, run: seq<State>, i: nat)
    requires WellFormed(c) && IsRun(c, run) && i < |run|
    ensures Inv(c, run[i])
  {
    if i == 0 {
      InitInv(c, run[0]);
    } else {
      RunInv(c, run, i - 1);
      assert StepAt(c, run, i);
      KeepInv(c, run[i - 1], run[i]);
    }
  }
}
