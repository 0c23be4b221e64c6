/** Every step keeps the causal history: each recorded step has its causes behind it. */
module KeepHistory {
  import Arith
  import opened Sets
  import opened Config
  import opened Protocol
  import opened Invariant

  /** What the history says about a step, if it was taken. */
  lemma Why(c: Config, s: State, ev: Event)
    requires WellFormed(c) && History(c, s)
    ensures ev in s.done ==> Fits(c, ev) && ev.k <= s.round[ev.r] && Caused(c, s.done, ev)
  {
    assert Explained(c, s, ev);
  }

  lemma HistoryGrows(c: Config, s: State, s': State, news: set<Event>)
    requires WellFormed(c) && History(c, s)
    requires s'.round == s.round && s'.done == s.done + news
    requires forall ev :: ev in news ==> Fits(c, ev) && ev.k <= s.round[ev.r] && Caused(c, s'.done, ev)
    ensures History(c, s')
  {
    forall ev
      ensures Explained(c, s', ev)
    {
      if ev in s.done && ev !in news {
        Why(c, s, ev);
        CausedGrows(c, s.done, s'.done, ev);
      }
    }
    forall r: nat, k: nat | r < c.ranks && k < s.round[r]
      ensures Complete(c, s'.done, r, k)
    {
      CompleteGrows(c, s.done, s'.done, r, k);
    }
  }

  lemma CompleteGrows(c: Config, done: set<Event>, done': set<Event>, r: nat, k: nat)
    requires WellFormed(c) && k < |c.plan| && done <= done' && Complete(c, done, r, k)
    ensures Complete(c, done', r, k)
  {
  }

  lemma CausedGrows(c: Config, done: set<Event>, done': set<Event>, ev: Event)
    requires WellFormed(c) && Fits(c, ev) && done <= done' && Caused(c, done, ev)
    ensures Caused(c, done', ev)
  {
  }

  /** The finish counter reads twice the tag exactly when the other half was cleaned and every
      send of the expert has finished. There is no bound relating the number of sends to the tag. */
  lemma FinishCounterExact(c: Config, s: State, r: nat, g: Group)
    requires WellFormed(c) && History(c, s) && Workspace(c, s)
    requires r < c.ranks && IsGroup(c, g)
    requires s.round[r] < |c.plan| && c.plan[s.round[r]].Dispatch?
    requires Count(r, s.round[r], g) in s.done && Retire(r, s.round[r], g) !in s.done
    ensures Ws(s, r, Finished(g)) == 2 * FINISHED_SUM_TAG <==>
              Tag(r, s.round[r], g) in s.done && AllFinished(c, s.done, r, s.round[r], g)
  {
    var k := s.round[r];
    var some, all := FinishedTasks(c, s.done, r, k, g), Tasks(c, r, k, g);
    assert Ws(s, r, Finished(g)) == WsValue(c, s, r, Finished(g));
    SubsetSize(some, all);
    if AllFinished(c, s.done, r, k, g) {
      assert some == all;
    }
    if |some| == |all| {
      assert some == all;
      forall it | IsItem(c, r, k, g, it)
        ensures Finish(r, k, g, it) in s.done
      {
        assert it in some;
      }
    }
  }

  /** While some group has not retired, the clean flag is positive exactly when it was raised. */
  lemma CleanFlagExact(c: Config, s: State, r: nat, g: Group)
    requires WellFormed(c) && History(c, s) && Workspace(c, s)
    requires r < c.ranks && IsGroup(c, g)
    requires s.round[r] < |c.plan| && c.plan[s.round[r]].Combine?
    requires Retire(r, s.round[r], g) !in s.done
    ensures Ws(s, r, FLAG) > 0 <==> Raise(r, s.round[r]) in s.done
    ensures Ws(s, r, FLAG) != 0 <==> Raise(r, s.round[r]) in s.done
  {
    var k := s.round[r];
    var some := RetiredGroups(c, s.done, r, k);
    assert Ws(s, r, FLAG) == WsValue(c, s, r, FLAG);
    GroupsSize(c);
    assert g in Groups(c) && g !in some;
    SubsetSize(some, Groups(c));
    forall h
      ensures Retire(r, k, h) in s.done ==> Raise(r, k) in s.done
    {
      Why(c, s, Retire(r, k, h));
      Why(c, s, Signal(r, k, h));
    }
  }

  lemma GroupsSize(c: Config)
    requires WellFormed(c)
    ensures |Groups(c)| == c.experts
  {
    GridSize(c.ranks, c.locals);
    assert Groups(c) == Grid(c.ranks, c.locals);
  }

  ghost function Grid(p: nat, l: nat): set<Group>
  {
    set i: nat, j: nat | i < p && j < l :: Group(i, j)
  }

  ghost function Column(p: nat, l: nat): set<Group>
  {
    set j: nat | j < l :: Group(p, j)
  }

  lemma {:induction false} GridSize(p: nat, l: nat)
    ensures |Grid(p, l)| == p * l
  {
    if p == 0 {
      assert Grid(p, l) == {};
    } else {
      GridSize(p - 1, l);
      ColumnSize(p - 1, l);
      assert Grid(p, l) == Grid(p - 1, l) + Column(p - 1, l);
      Arith.Distribute(p - 1, 1, l);
    }
  }

  lemma {:induction false} ColumnSize(p: nat, l: nat)
    ensures |Column(p, l)| == l
  {
    if l == 0 {
      assert Column(p, l) == {};
    } else {
      ColumnSize(p, l - 1);
      assert Column(p, l) == Column(p, l - 1) + {Group(p, l - 1)};
    }
  }

  // ---- one lemma per step whose causes lie elsewhere ----

  lemma SignalCaused(c: Config, s: State, r: nat, k: nat, g: Group)
    requires WellFormed(c) && Inv(c, s) && Enabled(c, s, Do(Signal(r, k, g)))
    ensures Caused(c, s.done, Signal(r, k, g))
  {
    NotRetired(c, s, r, k, g);
    if c.plan[k].Dispatch? {
      FinishCounterExact(c, s, r, g);
      TagMeansClean(c, s, r, k, g);
      FinishedMeansSent(c, s, r, k, g);
    } else {
      CleanFlagExact(c, s, r, g);
      TagMeansClean(c, s, r, k, g);
      PolledRange(c, s, r, k, g);
    }
  }

  lemma NotRetired(c: Config, s: State, r: nat, k: nat, g: Group)
    requires WellFormed(c) && History(c, s) && Signal(r, k, g) !in s.done
    ensures Retire(r, k, g) !in s.done
  {
    Why(c, s, Retire(r, k, g));
  }

  /** The clean tag and the clean flag come after the cleaning. */
  lemma TagMeansClean(c: Config, s: State, r: nat, k: nat, g: Group)
    requires WellFormed(c) && History(c, s)
    ensures Tag(r, k, g) in s.done || Raise(r, k) in s.done ==> AllClean(c, s.done, r, k)
  {
    Why(c, s, Tag(r, k, g));
    Why(c, s, Raise(r, k));
  }

  lemma FinishedMeansSent(c: Config, s: State, r: nat, k: nat, g: Group)
    requires WellFormed(c) && History(c, s) && k < |c.plan| && AllFinished(c, s.done, r, k, g)
    ensures AllSent(c, s.done, r, k, g)
  {
    forall it | IsItem(c, r, k, g, it)
      ensures Send(r, k, g, it) in s.done
    {
      Why(c, s, Finish(r, k, g, it));
    }
  }

  /** A rank in a combine launch reads the range its dispatch launch packed. */
  lemma PolledRange(c: Config, s: State, r: nat, k: nat, g: Group)
    requires WellFormed(c) && History(c, s) && Ranges(c, s)
    requires r < c.ranks && IsGroup(c, g) && k <= s.round[r] && k < |c.plan| && c.plan[k].Combine?
    ensures Poll(r, c.plan[k].of, g) in s.done
    ensures Layout(s, r, c.plan[k].of, g).count == Sends(c, g.peer, c.plan[k].of, Group(r, g.local))
  {
    assert Complete(c, s.done, r, c.plan[k].of);
  }

  /** Data that a rank copies itself lands at once. */
  lemma DirectLands(c: Config, s: State, r: nat, k: nat, g: Group)
    requires WellFormed(c) && History(c, s) && Queues(c, s) && InFlight(c, s)
    requires r < c.ranks && k < |c.plan| && IsGroup(c, g) && Direct(c, r, g.peer)
    requires AllSent(c, s.done, r, k, g)
    ensures AllLanded(c, s.done, r, k, g)
  {
    forall it | IsItem(c, r, k, g, it)
      ensures Land(r, k, g, it) in s.done
    {
      assert Send(r, k, g, it) in s.done;
    }
  }

  /** When the fabric reaches a signal, everything the signal announces has landed. */
  lemma SignalAtHead(c: Config, s: State, r: nat, qp: nat)
    requires WellFormed(c) && History(c, s) && Queues(c, s) && InFlight(c, s)
    requires Queue(s, r, qp) != [] && Queue(s, r, qp)[0].AtomicAdd?
    ensures var q := Queue(s, r, qp)[0];
      && RequestOk(c, s, r, qp, q)
      && AllLanded(c, s.done, r, q.k, q.g)
  {
    var q := Queue(s, r, qp);
    var k, g := q[0].k, q[0].g;
    assert RequestOk(c, s, r, qp, q[0]);
    Why(c, s, Signal(r, k, g));
    forall it | IsItem(c, r, k, g, it)
      ensures Land(r, k, g, it) in s.done
    {
      assert Send(r, k, g, it) in s.done;
    }
  }

  lemma PollCaused(c: Config, s: State, r: nat, k: nat, g: Group)
    requires WellFormed(c) && Inv(c, s) && Enabled(c, s, Do(Poll(r, k, g)))
    ensures LandSignal(g.peer, k, Group(r, g.local)) in s.done
    ensures WordAt(s, r, k % 2, Word(c, k, g.peer, g.local)) == SignalValue(c, g.peer, k, Group(r, g.local))
  {
    assert Armed(s, r, k, Word(c, k, g.peer, g.local));
  }

  // ---- all steps ----

  lemma DoCaused(c: Config, s: State, ev: Event)
    requires WellFormed(c) && Inv(c, s) && Enabled(c, s, Do(ev))
    ensures Fits(c, ev) && Caused(c, s.done, ev)
  {
    if ev.Signal? {
      SignalCaused(c, s, ev.r, ev.k, ev.g);
    } else if ev.Poll? {
      PollCaused(c, s, ev.r, ev.k, ev.g);
    } else if c.plan[ev.k].Dispatch? {
      DispatchCaused(c, s, ev);
    } else {
      CombineCaused(c, s, ev);
    }
  }

  lemma DispatchCaused(c: Config, s: State, ev: Event)
    requires WellFormed(c) && History(c, s) && Ranges(c, s) && ev.r < c.ranks && ev.k < |c.plan|
    requires c.plan[ev.k].Dispatch? && DispatchReady(c, s, ev) && !ev.Signal? && !ev.Poll?
    ensures Fits(c, ev) && Caused(c, s.done, ev)
  {
    var r, k := ev.r, ev.k;
    if ev.Send? {
      Why(c, s, Claim(r, k, ev.g, ev.it));
    } else if ev.Finish? {
      Why(c, s, Send(r, k, ev.g, ev.it));
    } else if ev.Retire? {
      Why(c, s, Signal(r, k, ev.g));
    } else if ev.Copy? {
      Why(c, s, Poll(r, k, ev.g));
    }
  }

  lemma CombineCaused(c: Config, s: State, ev: Event)
    requires WellFormed(c) && History(c, s) && Ranges(c, s) && ev.r < c.ranks && ev.k == s.round[ev.r] < |c.plan|
    requires c.plan[ev.k].Combine? && CombineReady(c, s, ev) && !ev.Signal? && !ev.Poll?
    ensures Fits(c, ev) && Caused(c, s.done, ev)
  {
    if ev.StageRow? || ev.Send? {
      PolledRange(c, s, ev.r, ev.k, ev.g);
    } else if ev.Retire? {
      Why(c, s, Signal(ev.r, ev.k, ev.g));
    }
  }

  lemma DeliverCaused(c: Config, s: State, r: nat, qp: nat)
    requires WellFormed(c) && History(c, s) && Queues(c, s) && InFlight(c, s) && Queue(s, r, qp) != []
    ensures var ev := Arrival(r, Queue(s, r, qp)[0]);
      Fits(c, ev) && ev.k <= s.round[ev.r] && Caused(c, s.done, ev)
  {
    var q := Queue(s, r, qp)[0];
    assert RequestOk(c, s, r, qp, q);
    match q
    case AtomicAdd(k, g, _, _) =>
      SignalAtHead(c, s, r, qp);
      Why(c, s, Signal(r, k, g));
    case Write(k, g, it, _, _) =>
      Why(c, s, Send(r, k, g, it));
  }

  lemma AdvanceCompletes(c: Config, s: State, r: nat)
    requires WellFormed(c) && History(c, s) && Ranges(c, s)
    requires r < c.ranks && s.round[r] < |c.plan| && Returned(c, s, r, s.round[r])
    ensures Complete(c, s.done, r, s.round[r])
  {
    var k := s.round[r];
    if c.plan[k].Dispatch? {
      forall g, it | IsGroup(c, g) && IsArrival(c, r, k, g, it)
        ensures Copy(r, k, g, it) in s.done
      {
        assert Poll(r, k, g) in s.done;
        assert it == Out(it.row);
      }
    }
  }

  lemma HistoryAdvances(c: Config, s: State, s': State, r: nat)
    requires WellFormed(c) && History(c, s)
    requires r < c.ranks && s.round[r] < |c.plan| && Complete(c, s.done, r, s.round[r])
    requires s'.done == s.done && s'.round == s.round[r := s.round[r] + 1]
    ensures History(c, s')
  {
    forall ev
      ensures Explained(c, s', ev)
    {
      Why(c, s, ev);
    }
  }

  lemma HistoryRecords(c: Config, s: State, s': State, ev: Event)
    requires WellFormed(c) && History(c, s) && Queues(c, s) && InFlight(c, s)
    requires s'.round == s.round && s'.done == s.done + Recorded(c, ev)
    requires Fits(c, ev) && ev.k <= s.round[ev.r] && Caused(c, s.done, ev)
    ensures History(c, s')
  {
    forall e | e in Recorded(c, ev)
      ensures Fits(c, e) && e.k <= s.round[e.r] && Caused(c, s'.done, e)
    {
      if e == ev {
        CausedGrows(c, s.done, s'.done, ev);
      } else {
        ArrivesAtOnce(c, s, s'.done, ev, e);
      }
    }
    HistoryGrows(c, s, s', Recorded(c, ev));
  }

  /** The arrival that a direct copy or store records has its causes. */
  lemma ArrivesAtOnce(c: Config, s: State, done': set<Event>, ev: Event, e: Event)
    requires WellFormed(c) && History(c, s) && Queues(c, s) && InFlight(c, s)
    requires done' == s.done + Recorded(c, ev) && e in Recorded(c, ev) && e != ev
    requires Fits(c, ev) && ev.k <= s.round[ev.r] && Caused(c, s.done, ev)
    ensures Fits(c, e) && e.k <= s.round[e.r] && Caused(c, done', e)
  {
    if ev.Signal? {
      DirectLands(c, s, ev.r, ev.k, ev.g);
    }
  }
}
