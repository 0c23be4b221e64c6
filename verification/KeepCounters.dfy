/** Every step keeps the slot order and the exact values of the workspace counters. */
module KeepCounters {
  import opened Sets
  import opened Config
  import opened Protocol
  import opened Invariant
  import opened KeepHistory

  // ---- slots ----

  /** Slots drawn never exceed the number of tasks, and reach it once all tasks have drawn. */
  lemma ClaimsBounded(c: Config, s: State, r: nat, k: nat, g: Group)
    requires WellFormed(c) && History(c, s) && ClaimOrder(c, s)
    requires k < |c.plan| && c.plan[k].Dispatch?
    ensures |Claims(s, r, k, g)| <= Sends(c, r, k, g)
    ensures (forall it :: IsItem(c, r, k, g, it) ==> Claim(r, k, g, it) in s.done) ==>
              |Claims(s, r, k, g)| == Sends(c, r, k, g)
  {
    var q := Claims(s, r, k, g);
    var drawn := set it | it in q;
    var all := Tasks(c, r, k, g);
    DistinctSize(q);
    forall it | it in q
      ensures it in all
    {
      Why(c, s, Claim(r, k, g, it));
    }
    SubsetSize(drawn, all);
    if forall it :: IsItem(c, r, k, g, it) ==> Claim(r, k, g, it) in s.done {
      forall it | it in all
        ensures it in drawn
      {
        assert IsItem(c, r, k, g, it);
      }
      assert drawn == all;
    }
  }

  /** A published count is the number of slots drawn: the message slots 0..n-1 are all taken. */
  lemma SignalledClaims(c: Config, s: State, r: nat, k: nat, g: Group)
    requires WellFormed(c) && History(c, s) && ClaimOrder(c, s)
    requires Signal(r, k, g) in s.done && k < |c.plan| && c.plan[k].Dispatch?
    ensures |Claims(s, r, k, g)| == Sends(c, r, k, g)
  {
    Why(c, s, Signal(r, k, g));
    forall it | IsItem(c, r, k, g, it)
      ensures Claim(r, k, g, it) in s.done
    {
      Why(c, s, Send(r, k, g, it));
    }
    ClaimsBounded(c, s, r, k, g);
  }

  /** A task that has not drawn its slot keeps the counters of its expert open. */
  lemma OpenForClaim(c: Config, s: State, r: nat, k: nat, g: Group, it: Item)
    requires WellFormed(c) && History(c, s) && Workspace(c, s)
    requires r < c.ranks && k == s.round[r] < |c.plan| && c.plan[k].Dispatch?
    requires IsGroup(c, g) && IsTask(c, r, k, g, it) && Claim(r, k, g, it) !in s.done
    ensures Retire(r, k, g) !in s.done
    ensures Ws(s, r, Slots(g)) == |Claims(s, r, k, g)|
  {
    Why(c, s, Retire(r, k, g));
    Why(c, s, Signal(r, k, g));
    Why(c, s, Send(r, k, g, it));
    assert Ws(s, r, Slots(g)) == WsValue(c, s, r, Slots(g));
  }

  lemma ClaimOrderClaim(c: Config, s: State, s': State, r: nat, k: nat, g: Group, it: Item)
    requires WellFormed(c) && ClaimOrder(c, s)
    requires Claim(r, k, g, it) !in s.done && s'.done == s.done + {Claim(r, k, g, it)}
    requires forall h :: Claim(r, k, h, it) !in s.done
    requires s'.mem.claims == s.mem.claims[(r, k, g) := Claims(s, r, k, g) + [it]]
    requires s'.mem.slot == s.mem.slot[(r, k, it) := |Claims(s, r, k, g)|]
    ensures ClaimOrder(c, s')
  {
    assert forall p: nat, l: nat, h :: (p, l, h) != (r, k, g) ==> Claims(s', p, l, h) == Claims(s, p, l, h);
    assert forall p: nat, l: nat, i :: (p, l, i) != (r, k, it) ==> SlotReg(s', p, l, i) == SlotReg(s, p, l, i);
  }

  lemma ClaimOrderFrame(c: Config, s: State, s': State)
    requires ClaimOrder(c, s)
    requires s'.mem.claims == s.mem.claims && s'.mem.slot == s.mem.slot
    requires s.done <= s'.done
    requires forall ev :: ev in s'.done && ev !in s.done ==> !ev.Claim?
    ensures ClaimOrder(c, s')
  {
    assert forall r, k, g :: Claims(s', r, k, g) == Claims(s, r, k, g);
    assert forall r, k, it :: SlotReg(s', r, k, it) == SlotReg(s, r, k, it);
  }

  lemma KeepClaimOrder(c: Config, s: State, a: Action)
    requires WellFormed(c) && History(c, s) && ClaimOrder(c, s) && Workspace(c, s) && Enabled(c, s, a)
    ensures ClaimOrder(c, Apply(c, s, a))
  {
    var s' := Apply(c, s, a);
    match a
    case Advance(r) => ClaimOrderFrame(c, s, s');
    case Deliver(r, qp) => ClaimOrderFrame(c, s, s');
    case Do(ev) =>
      EffectFrame(c, s, ev);
      if ev.Claim? {
        OpenForClaim(c, s, ev.r, ev.k, ev.g, ev.it);
        forall h
          ensures Claim(ev.r, ev.k, h, ev.it) !in s.done
        {
          Why(c, s, Claim(ev.r, ev.k, h, ev.it));
        }
        ClaimOrderClaim(c, s, s', ev.r, ev.k, ev.g, ev.it);
      } else {
        ClaimOrderFrame(c, s, s');
      }
  }

  // ---- workspace ----

  /** The steps that the value of a workspace word depends on. */
  ghost predicate SameMarks(c: Config, s: State, s': State, r: nat, w: WsWord)
    requires WellFormed(c) && |s.round| == c.ranks && r < c.ranks
  {
    var k, g := s.round[r], w.g;
    && s'.round == s.round
    && (k < |c.plan| ==>
          if c.plan[k].Dispatch? then
            && (Retire(r, k, g) in s'.done <==> Retire(r, k, g) in s.done)
            && (w.Slots? ==> Claims(s', r, k, g) == Claims(s, r, k, g))
            && (w.Finished? ==>
                  && (Tag(r, k, g) in s'.done <==> Tag(r, k, g) in s.done)
                  && (Count(r, k, g) in s'.done <==> Count(r, k, g) in s.done)
                  && (forall it :: Finish(r, k, g, it) in s'.done <==> Finish(r, k, g, it) in s.done))
          else
            w == FLAG ==>
              && (Raise(r, k) in s'.done <==> Raise(r, k) in s.done)
              && (forall h :: Retire(r, k, h) in s'.done <==> Retire(r, k, h) in s.done))
  }

  lemma WsValueFrame(c: Config, s: State, s': State, r: nat, w: WsWord)
    requires WellFormed(c) && |s.round| == c.ranks && r < c.ranks
    requires SameMarks(c, s, s', r, w)
    ensures WsValue(c, s', r, w) == WsValue(c, s, r, w)
  {
    var k, g := s.round[r], w.g;
    if k < |c.plan| && c.plan[k].Dispatch? && w.Finished? {
      assert FinishedTasks(c, s'.done, r, k, g) == FinishedTasks(c, s.done, r, k, g);
    } else if k < |c.plan| && c.plan[k].Combine? && w == FLAG {
      assert RetiredGroups(c, s'.done, r, k) == RetiredGroups(c, s.done, r, k);
    }
  }

  /** Steps that touch no counter. */
  lemma WorkspaceFrame(c: Config, s: State, s': State)
    requires WellFormed(c) && |s.round| == c.ranks && Workspace(c, s)
    requires s'.round == s.round && s'.mem.ws == s.mem.ws && s'.mem.claims == s.mem.claims
    requires s.done <= s'.done
    requires forall ev :: ev in s'.done && ev !in s.done ==>
      !ev.Retire? && !ev.Tag? && !ev.Count? && !ev.Raise? && !ev.Finish?
    ensures Workspace(c, s')
  {
    forall r: nat, w | r < c.ranks
      ensures Ws(s', r, w) == WsValue(c, s', r, w)
    {
      assert Ws(s, r, w) == WsValue(c, s, r, w);
      WsValueFrame(c, s, s', r, w);
    }
  }

  /** The single word a counting step touches. */
  ghost predicate Touches(c: Config, ev: Event, w: WsWord)
    requires ev.k < |c.plan|
  {
    if ev.Claim? then w == Slots(ev.g)
    else if ev.Finish? || ev.Tag? || ev.Count? then w == Finished(ev.g)
    else (ev.Raise? || ev.Retire?) && c.plan[ev.k].Combine? && w == FLAG
  }

  lemma WorkspaceOne(c: Config, s: State, s': State, ev: Event, w: WsWord)
    requires WellFormed(c) && |s.round| == c.ranks && Workspace(c, s)
    requires ev.r < c.ranks && ev.k == s.round[ev.r] < |c.plan| && Touches(c, ev, w)
    requires s'.round == s.round && s'.done == s.done + {ev}
    requires s'.mem.claims == s.mem.claims ||
             (ev.Claim? && s'.mem.claims == s.mem.claims[(ev.r, ev.k, ev.g) := Claims(s', ev.r, ev.k, ev.g)])
    requires s'.mem.ws == s.mem.ws[(ev.r, w) := WsValue(c, s', ev.r, w)]
    ensures Workspace(c, s')
  {
    forall p: nat, v | p < c.ranks
      ensures Ws(s', p, v) == WsValue(c, s', p, v)
    {
      if p != ev.r || v != w {
        assert Ws(s, p, v) == WsValue(c, s, p, v);
        WsValueFrame(c, s, s', p, v);
      }
    }
  }

  lemma WorkspaceClaim(c: Config, s: State, s': State, r: nat, k: nat, g: Group, it: Item)
    requires WellFormed(c) && History(c, s) && Workspace(c, s)
    requires Fits(c, Claim(r, k, g, it)) && k == s.round[r] && Claim(r, k, g, it) !in s.done
    requires s'.round == s.round && s'.done == s.done + {Claim(r, k, g, it)} && s'.mem == DoClaim(s, r, k, g, it)
    ensures Workspace(c, s')
  {
    OpenForClaim(c, s, r, k, g, it);
    WorkspaceOne(c, s, s', Claim(r, k, g, it), Slots(g));
  }

  /** The finish counter of an expert is open as long as one of its contributions is missing. */
  lemma OpenForFinish(c: Config, s: State, ev: Event)
    requires WellFormed(c) && History(c, s) && Workspace(c, s)
    requires ev.Finish? || ev.Tag? || ev.Count?
    requires Fits(c, ev) && ev.k == s.round[ev.r] && ev !in s.done
    ensures Retire(ev.r, ev.k, ev.g) !in s.done
  {
    Why(c, s, Retire(ev.r, ev.k, ev.g));
    Why(c, s, Signal(ev.r, ev.k, ev.g));
  }

  /** What a contribution adds to the finish counter. */
  ghost function Share(c: Config, ev: Event): int
    requires c.locals > 0 && (ev.Finish? || ev.Tag? || ev.Count?)
  {
    if ev.Finish? then 1
    else if ev.Tag? then FINISHED_SUM_TAG
    else FINISHED_SUM_TAG - Sends(c, ev.r, ev.k, ev.g)
  }

  lemma FinishedGrows(c: Config, done: set<Event>, r: nat, k: nat, g: Group, it: Item)
    requires c.locals > 0 && it in Tasks(c, r, k, g) && Finish(r, k, g, it) !in done
    ensures |FinishedTasks(c, done + {Finish(r, k, g, it)}, r, k, g)| == |FinishedTasks(c, done, r, k, g)| + 1
  {
    assert FinishedTasks(c, done + {Finish(r, k, g, it)}, r, k, g) == FinishedTasks(c, done, r, k, g) + {it};
  }

  lemma FinishedStays(c: Config, done: set<Event>, ev: Event, r: nat, k: nat, g: Group)
    requires c.locals > 0 && !ev.Finish?
    ensures FinishedTasks(c, done + {ev}, r, k, g) == FinishedTasks(c, done, r, k, g)
  {
  }

  lemma FinishedValue(c: Config, s: State, s': State, ev: Event)
    requires WellFormed(c) && |s.round| == c.ranks
    requires ev.Finish? || ev.Tag? || ev.Count?
    requires Fits(c, ev) && ev.k == s.round[ev.r] && ev !in s.done && Retire(ev.r, ev.k, ev.g) !in s.done
    requires s'.round == s.round && s'.done == s.done + {ev}
    ensures WsValue(c, s', ev.r, Finished(ev.g)) == WsValue(c, s, ev.r, Finished(ev.g)) + Share(c, ev)
  {
    if ev.Finish? {
      TaskInSet(c, ev.r, ev.k, ev.g, ev.it);
      FinishedGrows(c, s.done, ev.r, ev.k, ev.g, ev.it);
    } else {
      FinishedStays(c, s.done, ev, ev.r, ev.k, ev.g);
    }
  }

  lemma WorkspaceFinish(c: Config, s: State, s': State, ev: Event)
    requires WellFormed(c) && History(c, s) && Workspace(c, s)
    requires ev.Finish? || ev.Tag? || ev.Count?
    requires Fits(c, ev) && ev.k == s.round[ev.r] && ev !in s.done
    requires s'.round == s.round && s'.done == s.done + {ev}
    requires s'.mem == s.mem.(ws := AddWs(s, ev.r, Finished(ev.g), Share(c, ev)))
    ensures Workspace(c, s')
  {
    OpenForFinish(c, s, ev);
    assert Ws(s, ev.r, Finished(ev.g)) == WsValue(c, s, ev.r, Finished(ev.g));
    FinishedValue(c, s, s', ev);
    WorkspaceOne(c, s, s', ev, Finished(ev.g));
  }

  lemma FlagValue(c: Config, s: State, s': State, ev: Event)
    requires WellFormed(c) && |s.round| == c.ranks
    requires Fits(c, ev) && c.plan[ev.k].Combine? && (ev.Raise? || ev.Retire?)
    requires ev.k == s.round[ev.r] && ev !in s.done
    requires s'.round == s.round && s'.done == s.done + {ev}
    ensures WsValue(c, s', ev.r, FLAG) == WsValue(c, s, ev.r, FLAG) + if ev.Raise? then c.experts else -1
  {
    var before, after := RetiredGroups(c, s.done, ev.r, ev.k), RetiredGroups(c, s'.done, ev.r, ev.k);
    if ev.Retire? {
      assert after == before + {ev.g};
    } else {
      assert after == before;
    }
  }

  lemma WorkspaceFlag(c: Config, s: State, s': State, ev: Event)
    requires WellFormed(c) && |s.round| == c.ranks && Workspace(c, s)
    requires Fits(c, ev) && c.plan[ev.k].Combine? && (ev.Raise? || ev.Retire?)
    requires ev.k == s.round[ev.r] && ev !in s.done
    requires s'.round == s.round && s'.done == s.done + {ev}
    requires s'.mem.ws == AddWs(s, ev.r, FLAG, if ev.Raise? then c.experts else -1)
    requires s'.mem.claims == s.mem.claims
    ensures Workspace(c, s')
  {
    assert Ws(s, ev.r, FLAG) == WsValue(c, s, ev.r, FLAG);
    FlagValue(c, s, s', ev);
    WorkspaceOne(c, s, s', ev, FLAG);
  }

  lemma WorkspaceRetire(c: Config, s: State, s': State, r: nat, k: nat, g: Group)
    requires WellFormed(c) && History(c, s) && Workspace(c, s)
    requires Fits(c, Retire(r, k, g)) && c.plan[k].Dispatch? && k == s.round[r]
    requires s'.round == s.round && s'.done == s.done + {Retire(r, k, g)} && s'.mem == DoRetire(c, s, r, k, g)
    ensures Workspace(c, s')
  {
    forall p: nat, w | p < c.ranks
      ensures Ws(s', p, w) == WsValue(c, s', p, w)
    {
      assert Ws(s, p, w) == WsValue(c, s, p, w);
      if p != r || w.g != g {
        WsValueFrame(c, s, s', p, w);
      }
    }
  }

  /** At the end of every launch the workspace is zero again. */
  lemma WorkspaceReturns(c: Config, s: State, r: nat, w: WsWord)
    requires WellFormed(c) && History(c, s) && Workspace(c, s)
    requires r < c.ranks && s.round[r] < |c.plan| && AllRetired(c, s.done, r, s.round[r])
    ensures Ws(s, r, w) == 0
  {
    var k := s.round[r];
    assert Ws(s, r, w) == WsValue(c, s, r, w);
    if c.plan[k].Combine? && w == FLAG {
      assert RetiredGroups(c, s.done, r, k) == Groups(c);
      GroupsSize(c);
      Why(c, s, Retire(r, k, Group(0, 0)));
      Why(c, s, Signal(r, k, Group(0, 0)));
    }
  }

  lemma NoClaimsAhead(c: Config, s: State, r: nat, k: nat, g: Group)
    requires WellFormed(c) && History(c, s) && ClaimOrder(c, s) && r < c.ranks && k > s.round[r]
    ensures Claims(s, r, k, g) == []
  {
    if Claims(s, r, k, g) != [] {
      Why(c, s, Claim(r, k, g, Claims(s, r, k, g)[0]));
    }
  }

  /** A rank that enters a launch finds its counters at the values of an untouched launch. */
  lemma WorkspaceEnters(c: Config, s: State, s': State, r: nat, w: WsWord)
    requires WellFormed(c) && History(c, s) && ClaimOrder(c, s)
    requires r < c.ranks && s'.round == s.round[r := s.round[r] + 1] && s'.done == s.done && s'.mem == s.mem
    ensures WsValue(c, s', r, w) == 0
  {
    var k := s'.round[r];
    forall ev
      ensures ev in s'.done && ev.r == r ==> ev.k != k
    {
      Why(c, s, ev);
    }
    if k < |c.plan| {
      assert FinishedTasks(c, s'.done, r, k, w.g) == {};
      assert RetiredGroups(c, s'.done, r, k) == {};
      NoClaimsAhead(c, s, r, k, w.g);
      assert Claims(s', r, k, w.g) == Claims(s, r, k, w.g);
    }
  }

  lemma WorkspaceAdvance(c: Config, s: State, s': State, r: nat)
    requires WellFormed(c) && History(c, s) && ClaimOrder(c, s) && Workspace(c, s)
    requires r < c.ranks && s.round[r] < |c.plan| && AllRetired(c, s.done, r, s.round[r])
    requires s'.round == s.round[r := s.round[r] + 1] && s'.done == s.done && s'.mem == s.mem
    ensures Workspace(c, s')
  {
    forall p: nat, w | p < c.ranks
      ensures Ws(s', p, w) == WsValue(c, s', p, w)
    {
      assert Ws(s, p, w) == WsValue(c, s, p, w);
      if p == r {
        WorkspaceReturns(c, s, r, w);
        WorkspaceEnters(c, s, s', r, w);
      }
    }
  }

  lemma WorkspaceDo(c: Config, s: State, s': State, ev: Event)
    requires WellFormed(c) && History(c, s) && Workspace(c, s)
    requires Fits(c, ev) && ev.k == s.round[ev.r] && ev !in s.done && Ready(c, s, ev)
    requires s' == State(s.round, s.done + Recorded(c, ev), Effect(c, s, ev))
    ensures Workspace(c, s')
  {
    EffectFrame(c, s, ev);
    if ev.Claim? {
      WorkspaceClaim(c, s, s', ev.r, ev.k, ev.g, ev.it);
    } else if ev.Finish? || ev.Tag? || ev.Count? {
      WorkspaceFinish(c, s, s', ev);
    } else if ev.Retire? && c.plan[ev.k].Dispatch? {
      WorkspaceRetire(c, s, s', ev.r, ev.k, ev.g);
    } else if ev.Raise? || ev.Retire? {
      WorkspaceFlag(c, s, s', ev);
    } else {
      WorkspaceFrame(c, s, s');
    }
  }
}
