/** Every step keeps the packed ranges of the sources disjoint, in range and gap-free. */
module KeepRanges {
  import Arith
  import opened Sets
  import opened Config
  import opened Protocol
  import opened Invariant
  import opened KeepHistory

  // ---- a source never sends an expert more than one message per token ----

  lemma {:induction false} OnePerToken(tasks: set<Item>, n: nat)
    requires forall a :: a in tasks ==> a.Tok? && a.t < n
    requires forall a, b :: a in tasks && b in tasks && a.t == b.t ==> a == b
    ensures |tasks| <= n
  {
    if n == 0 {
      assert tasks == {};
    } else if a :| a in tasks && a.t == n - 1 {
      OnePerToken(tasks - {a}, n - 1);
    } else {
      OnePerToken(tasks, n - 1);
    }
  }

  /** A token names an expert at most once, so it has at most one task for it. */
  lemma TaskOfToken(c: Config, r: nat, k: nat, g: Group, x: Item, y: Item)
    requires WellFormed(c) && r < c.ranks && k < |c.plan| && c.plan[k].Dispatch?
    requires IsTask(c, r, k, g, x) && IsTask(c, r, k, g, y) && x.t == y.t
    ensures x == y
  {
    var b := c.batch(r, k);
    assert WellFormedBatch(c, b);
    SameExpert(c, TopkAt(b, x.t, x.j), TopkAt(b, y.t, y.j));
  }

  lemma SendsBounded(c: Config, r: nat, k: nat, g: Group)
    requires WellFormed(c) && r < c.ranks && k < |c.plan| && c.plan[k].Dispatch?
    ensures Sends(c, r, k, g) <= c.maxTokens
  {
    var b := c.batch(r, k);
    assert WellFormedBatch(c, b);
    forall x, y | x in Tasks(c, r, k, g) && y in Tasks(c, r, k, g) && x.t == y.t
      ensures x == y
    {
      TaskOfToken(c, r, k, g, x, y);
    }
    OnePerToken(Tasks(c, r, k, g), |b.x|);
  }

  lemma SameExpert(c: Config, d: nat, e: nat)
    requires WellFormed(c) && d < c.experts && e < c.experts && GroupOf(c, d) == GroupOf(c, e)
    ensures d == e
  {
    GroupOfFlat(c, d);
    GroupOfFlat(c, e);
  }

  // ---- ranges ----

  lemma RangesFrame(c: Config, s: State, s': State)
    requires WellFormed(c) && |s.round| == c.ranks && Ranges(c, s)
    requires s'.round == s.round && s'.mem.layout == s.mem.layout && s'.mem.packedCount == s.mem.packedCount
    requires s.done <= s'.done
    requires forall ev :: ev in s'.done && ev !in s.done ==> !(ev.Poll? && ev.k < |c.plan| && c.plan[ev.k].Dispatch?)
    ensures Ranges(c, s')
  {
    assert forall r, k, g :: Layout(s', r, k, g) == Layout(s, r, k, g);
    assert forall r, l :: PackedCount(s', r, l) == PackedCount(s, r, l);
  }

  /** A poll appends a range of n rows after the rows packed so far. */
  ghost predicate Appends(s: State, s': State, r: nat, k: nat, g: Group, n: nat)
  {
    && s'.round == s.round && s'.done == s.done + {Poll(r, k, g)}
    && s'.mem.packedCount == s.mem.packedCount[(r, g.local) := PackedCount(s, r, g.local) + n]
    && s'.mem.layout == s.mem.layout[(r, k, g) := Range(n, PackedCount(s, r, g.local))]
  }

  lemma RangesPoll(c: Config, s: State, s': State, r: nat, k: nat, g: Group)
    requires WellFormed(c) && |s.round| == c.ranks && Ranges(c, s)
    requires r < c.ranks && k == s.round[r] < |c.plan| && c.plan[k].Dispatch? && Poll(r, k, g) !in s.done
    requires 0 <= PackedCount(s, r, g.local)
    requires PackedCount(s, r, g.local) + Sends(c, g.peer, k, Group(r, g.local)) <= c.ranks * c.maxTokens
    requires Appends(s, s', r, k, g, Sends(c, g.peer, k, Group(r, g.local)))
    ensures Ranges(c, s')
  {
    FitPoll(c, s, s', r, k, g);
    ApartPoll(c, s, s', r, k, g);
  }

  lemma FitPoll(c: Config, s: State, s': State, r: nat, k: nat, g: Group)
    requires WellFormed(c) && |s.round| == c.ranks && RangesFit(c, s)
    requires r < c.ranks && k == s.round[r] < |c.plan| && c.plan[k].Dispatch?
    requires 0 <= PackedCount(s, r, g.local)
    requires PackedCount(s, r, g.local) + Sends(c, g.peer, k, Group(r, g.local)) <= c.ranks * c.maxTokens
    requires Appends(s, s', r, k, g, Sends(c, g.peer, k, Group(r, g.local)))
    ensures RangesFit(c, s')
  {
    assert forall p: nat, l: nat, h :: (p, l, h) != (r, k, g) ==> Layout(s', p, l, h) == Layout(s, p, l, h);
    assert forall p: nat, l: nat :: (p, l) != (r, g.local) ==> PackedCount(s', p, l) == PackedCount(s, p, l);
  }

  lemma ApartPoll(c: Config, s: State, s': State, r: nat, k: nat, g: Group)
    requires WellFormed(c) && |s.round| == c.ranks && Ranges(c, s) && Poll(r, k, g) !in s.done
    requires r < c.ranks && k == s.round[r] < |c.plan| && c.plan[k].Dispatch?
    requires Appends(s, s', r, k, g, Sends(c, g.peer, k, Group(r, g.local)))
    ensures RangesApart(c, s')
  {
    assert forall p: nat, l: nat, h :: (p, l, h) != (r, k, g) ==> Layout(s', p, l, h) == Layout(s, p, l, h);
  }

  /** Before the counters are reset nothing has been polled. */
  lemma NotPolledYet(c: Config, s: State, r: nat, k: nat, g: Group, h: Group)
    requires WellFormed(c) && History(c, s) && IsGroup(c, g)
    requires k < |c.plan| && c.plan[k].Dispatch? && Retire(r, k, g) !in s.done
    ensures Poll(r, k, h) !in s.done
  {
    Why(c, s, Poll(r, k, h));
  }

  lemma RangesRetire(c: Config, s: State, s': State, r: nat, k: nat, g: Group)
    requires WellFormed(c) && |s.round| == c.ranks && Ranges(c, s)
    requires r < c.ranks && k == s.round[r] && forall h :: Poll(r, k, h) !in s.done
    requires s'.round == s.round && s'.done == s.done + {Retire(r, k, g)}
    requires s'.mem.layout == s.mem.layout
    requires forall p: nat, l: nat :: p != r ==> PackedCount(s', p, l) == PackedCount(s, p, l)
    ensures Ranges(c, s')
  {
    assert forall p, l, h :: Layout(s', p, l, h) == Layout(s, p, l, h);
  }

  lemma RangesAdvance(c: Config, s: State, s': State, r: nat)
    requires WellFormed(c) && History(c, s) && Ranges(c, s)
    requires r < c.ranks && s'.round == s.round[r := s.round[r] + 1] && s'.done == s.done && s'.mem == s.mem
    ensures Ranges(c, s')
  {
    assert forall p, l, h :: Layout(s', p, l, h) == Layout(s, p, l, h);
    assert forall p, l :: PackedCount(s', p, l) == PackedCount(s, p, l);
    forall g
      ensures Poll(r, s'.round[r], g) !in s.done
    {
      Why(c, s, Poll(r, s'.round[r], g));
    }
  }

  // ---- packing ----

  lemma PackingFrame(c: Config, s: State, s': State)
    requires WellFormed(c) && |s.round| == c.ranks && Packing(c, s)
    requires s'.round == s.round && s'.mem.layout == s.mem.layout && s'.mem.packedCount == s.mem.packedCount
    requires s.done <= s'.done
    requires forall ev :: ev in s'.done && ev !in s.done && ev.k < |c.plan| && c.plan[ev.k].Dispatch? ==>
      !ev.Poll? && !(ev.Retire? && ev.g.peer == 0)
    ensures Packing(c, s')
  {
    forall p: nat, l: nat | p < c.ranks && l < c.locals
      ensures PackedExpert(c, s', p, l)
    {
      assert PackedCount(s', p, l) == PackedCount(s, p, l);
      assert forall h :: Layout(s', p, s.round[p], h) == Layout(s, p, s.round[p], h);
      PackedExpertStays(c, s, s', p, l);
    }
  }

  lemma PackedExpertStays(c: Config, s: State, s': State, p: nat, l: nat)
    requires WellFormed(c) && |s.round| == c.ranks && p < c.ranks && l < c.locals && PackedExpert(c, s, p, l)
    requires s'.round == s.round && s.done <= s'.done && PackedCount(s', p, l) == PackedCount(s, p, l)
    requires s.round[p] < |c.plan| && c.plan[s.round[p]].Dispatch? ==>
      && (forall h: Group :: h.local == l ==>
            && Layout(s', p, s.round[p], h) == Layout(s, p, s.round[p], h)
            && (Poll(p, s.round[p], h) in s'.done ==> Poll(p, s.round[p], h) in s.done))
      && (Retire(p, s.round[p], Group(0, l)) in s'.done ==> Retire(p, s.round[p], Group(0, l)) in s.done)
    ensures PackedExpert(c, s', p, l)
  {
    var k := s.round[p];
    if k < |c.plan| && c.plan[k].Dispatch? {
      assert PolledPeers(c, s'.done, p, k, l) == PolledPeers(c, s.done, p, k, l);
      forall pos | Covered(c, s, p, k, l, pos)
        ensures Covered(c, s', p, k, l, pos)
      {
        CoveredStays(c, s, s', p, k, l, pos);
      }
    }
  }

  lemma CoveredStays(c: Config, s: State, s': State, r: nat, k: nat, local: nat, pos: int)
    requires Covered(c, s, r, k, local, pos) && s.done <= s'.done
    requires forall p: nat :: Poll(r, k, Group(p, local)) in s.done ==>
      Layout(s', r, k, Group(p, local)) == Layout(s, r, k, Group(p, local))
    ensures Covered(c, s', r, k, local, pos)
  {
  }

  /** One local expert after one more source was packed. */
  lemma PackingPoll(c: Config, s: State, s': State, r: nat, k: nat, g: Group)
    requires WellFormed(c) && |s.round| == c.ranks && Packing(c, s)
    requires r < c.ranks && k == s.round[r] < |c.plan| && c.plan[k].Dispatch?
    requires IsGroup(c, g) && Poll(r, k, g) !in s.done && Retire(r, k, Group(0, g.local)) in s.done
    requires var n := Sends(c, g.peer, k, Group(r, g.local));
      && s'.mem.packedCount == s.mem.packedCount[(r, g.local) := PackedCount(s, r, g.local) + n]
      && s'.mem.layout == s.mem.layout[(r, k, g) := Range(n, PackedCount(s, r, g.local))]
    requires s'.round == s.round && s'.done == s.done + {Poll(r, k, g)}
    ensures PackedExpert(c, s', r, g.local)
  {
    var n, begin := Sends(c, g.peer, k, Group(r, g.local)), PackedCount(s, r, g.local);
    assert PackedExpert(c, s, r, g.local);
    SendsBounded(c, g.peer, k, Group(r, g.local));
    var before, after := PolledPeers(c, s.done, r, k, g.local), PolledPeers(c, s'.done, r, k, g.local);
    assert after == before + {g.peer};
    Arith.Distribute(|before|, 1, c.maxTokens);
    assert Layout(s', r, k, g) == Range(n, begin);
    forall pos | 0 <= pos < begin + n
      ensures Covered(c, s', r, k, g.local, pos)
    {
      if pos < begin {
        assert forall h :: h != g ==> Layout(s', r, k, h) == Layout(s, r, k, h);
        CoveredStays(c, s, s', r, k, g.local, pos);
      } else {
        assert Poll(r, k, Group(g.peer, g.local)) in s'.done;
      }
    }
  }

  /** Steps of rank r that leave other ranks and other local experts alone. */
  lemma PackingOne(c: Config, s: State, s': State, r: nat, local: nat, ev: Event)
    requires WellFormed(c) && |s.round| == c.ranks && Packing(c, s)
    requires ev.r == r && r < c.ranks && (ev.Poll? || ev.Retire?) && ev.g.local == local
    requires s'.round == s.round && s'.done == s.done + {ev}
    requires forall p: nat, l: nat :: p != r || l != local ==> PackedCount(s', p, l) == PackedCount(s, p, l)
    requires forall p: nat, k: nat, h: Group :: p != r || h.local != local ==> Layout(s', p, k, h) == Layout(s, p, k, h)
    requires local < c.locals ==> PackedExpert(c, s', r, local)
    ensures Packing(c, s')
  {
    forall p: nat, l: nat | p < c.ranks && l < c.locals && (p != r || l != local)
      ensures PackedExpert(c, s', p, l)
    {
      PackedExpertStays(c, s, s', p, l);
    }
  }

  lemma PackingRetire(c: Config, s: State, s': State, r: nat, k: nat, g: Group)
    requires WellFormed(c) && |s.round| == c.ranks && Packing(c, s)
    requires r < c.ranks && k == s.round[r] < |c.plan| && c.plan[k].Dispatch? && IsGroup(c, g)
    requires forall h :: Poll(r, k, h) !in s.done
    requires s'.round == s.round && s'.done == s.done + {Retire(r, k, g)} && s'.mem == DoRetire(c, s, r, k, g)
    ensures Packing(c, s')
  {
    assert forall p, l, h :: Layout(s', p, l, h) == Layout(s, p, l, h);
    assert forall p: nat, l: nat :: p != r || l != g.local ==> PackedCount(s', p, l) == PackedCount(s, p, l);
    if g.peer == 0 {
      assert PolledPeers(c, s'.done, r, k, g.local) == {};
      assert PackedCount(s', r, g.local) == 0;
    } else {
      assert PackedCount(s', r, g.local) == PackedCount(s, r, g.local);
      PackedExpertStays(c, s, s', r, g.local);
    }
    PackingOne(c, s, s', r, g.local, Retire(r, k, g));
  }

  lemma PackingAdvance(c: Config, s: State, s': State, r: nat)
    requires WellFormed(c) && History(c, s) && Packing(c, s)
    requires r < c.ranks && s'.round == s.round[r := s.round[r] + 1] && s'.done == s.done && s'.mem == s.mem
    ensures Packing(c, s')
  {
    forall p: nat, l: nat | p < c.ranks && l < c.locals
      ensures PackedExpert(c, s', p, l)
    {
      Why(c, s, Retire(r, s'.round[r], Group(0, l)));
      assert PackedExpert(c, s, p, l);
      if p != r {
        assert forall h :: Layout(s', p, s.round[p], h) == Layout(s, p, s.round[p], h);
        assert forall pos :: Covered(c, s, p, s.round[p], l, pos) ==> Covered(c, s', p, s.round[p], l, pos);
        assert PackedCount(s', p, l) == PackedCount(s, p, l);
      }
    }
  }

  // ---- all steps ----

  /** The packed buffer has room for one more source. */
  lemma RoomLeft(c: Config, s: State, r: nat, k: nat, g: Group)
    requires WellFormed(c) && |s.round| == c.ranks && r < c.ranks && k == s.round[r] < |c.plan| && c.plan[k].Dispatch?
    requires IsGroup(c, g) && Poll(r, k, g) !in s.done && Retire(r, k, Group(0, g.local)) in s.done
    requires PackedExpert(c, s, r, g.local)
    ensures PackedCount(s, r, g.local) + Sends(c, g.peer, k, Group(r, g.local)) <= c.ranks * c.maxTokens
  {
    SendsBounded(c, g.peer, k, Group(r, g.local));
    var before := PolledPeers(c, s.done, r, k, g.local);
    BelowSize(before + {g.peer}, c.ranks);
    Arith.Distribute(|before|, 1, c.maxTokens);
    Arith.MulMono(|before| + 1, c.ranks, c.maxTokens);
  }

  lemma PollPacks(c: Config, s: State, s': State, r: nat, k: nat, g: Group)
    requires WellFormed(c) && |s.round| == c.ranks && Ranges(c, s) && Packing(c, s)
    requires r < c.ranks && k == s.round[r] < |c.plan| && c.plan[k].Dispatch? && IsGroup(c, g)
    requires Poll(r, k, g) !in s.done && AllRetired(c, s.done, r, k)
    requires WordAt(s, r, k % 2, Word(c, k, g.peer, g.local)) == SignalValue(c, g.peer, k, Group(r, g.local))
    requires s'.round == s.round && s'.done == s.done + {Poll(r, k, g)} && s'.mem == DoPoll(c, s, r, k, g)
    ensures Ranges(c, s') && Packing(c, s')
  {
    assert PackedExpert(c, s, r, g.local);
    RoomLeft(c, s, r, k, g);
    RangesPoll(c, s, s', r, k, g);
    PackingPoll(c, s, s', r, k, g);
    assert forall p: nat, l: nat :: p != r || l != g.local ==> PackedCount(s', p, l) == PackedCount(s, p, l);
    assert forall p: nat, l: nat, h: Group :: p != r || h.local != g.local ==>
        Layout(s', p, l, h) == Layout(s, p, l, h);
    PackingOne(c, s, s', r, g.local, Poll(r, k, g));
  }

  lemma RetireResets(c: Config, s: State, s': State, r: nat, k: nat, g: Group)
    requires WellFormed(c) && History(c, s) && Ranges(c, s) && Packing(c, s)
    requires r < c.ranks && k == s.round[r] < |c.plan| && c.plan[k].Dispatch? && IsGroup(c, g)
    requires Retire(r, k, g) !in s.done
    requires s'.round == s.round && s'.done == s.done + {Retire(r, k, g)} && s'.mem == DoRetire(c, s, r, k, g)
    ensures Ranges(c, s') && Packing(c, s')
  {
    forall h
      ensures Poll(r, k, h) !in s.done
    {
      NotPolledYet(c, s, r, k, g, h);
    }
    assert forall p: nat, l: nat :: p != r ==> PackedCount(s', p, l) == PackedCount(s, p, l);
    RangesRetire(c, s, s', r, k, g);
    PackingRetire(c, s, s', r, k, g);
  }

  lemma RangesDo(c: Config, s: State, s': State, ev: Event)
    requires WellFormed(c) && History(c, s) && Ranges(c, s) && Packing(c, s)
    requires Fits(c, ev) && Caused(c, s.done, ev) && ev.k == s.round[ev.r] && ev !in s.done
    requires ev.Poll? && c.plan[ev.k].Dispatch? ==>
      WordAt(s, ev.r, ev.k % 2, Word(c, ev.k, ev.g.peer, ev.g.local))
      == SignalValue(c, ev.g.peer, ev.k, Group(ev.r, ev.g.local))
    requires s'.round == s.round && s'.done == s.done + Recorded(c, ev) && s'.mem == Effect(c, s, ev)
    ensures Ranges(c, s') && Packing(c, s')
  {
    EffectFrame(c, s, ev);
    if ev.Poll? && c.plan[ev.k].Dispatch? {
      PollPacks(c, s, s', ev.r, ev.k, ev.g);
    } else if ev.Retire? && c.plan[ev.k].Dispatch? {
      RetireResets(c, s, s', ev.r, ev.k, ev.g);
    } else {
      RangesFrame(c, s, s');
      PackingFrame(c, s, s');
    }
  }
}
