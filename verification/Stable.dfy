/** What was sent keeps its addresses and its content, whatever else happens. */
module Stable {
  import opened Config
  import opened Protocol
  import opened Invariant
  import opened KeepHistory
  import opened KeepCounters

  /** Registers and outputs that a finished step wrote are never rewritten. */
  ghost predicate Grows(s: State, s': State)
  {
    && (forall p: nat, l: nat, g :: Poll(p, l, g) in s.done ==> Layout(s', p, l, g) == Layout(s, p, l, g))
    && (forall p: nat, l: nat, x: nat, pos :: p < |s.round| && l < s.round[p] ==>
          Packed(s', p, l, x, pos) == Packed(s, p, l, x, pos))
    && (forall p: nat, l: nat, g, it :: Claim(p, l, g, it) in s.done ==> SlotReg(s', p, l, it) == SlotReg(s, p, l, it))
    && (forall p: nat, l: nat, g :: Claims(s, p, l, g) <= Claims(s', p, l, g))
  }

  lemma GrowsIfEqual(s: State, s': State)
    requires s'.mem.layout == s.mem.layout && s'.mem.packed == s.mem.packed
    requires s'.mem.slot == s.mem.slot && s'.mem.claims == s.mem.claims
    ensures Grows(s, s')
  {
    assert forall p, l, g :: Layout(s', p, l, g) == Layout(s, p, l, g);
    assert forall p, l, x, pos :: Packed(s', p, l, x, pos) == Packed(s, p, l, x, pos);
    assert forall p, l, it :: SlotReg(s', p, l, it) == SlotReg(s, p, l, it);
    assert forall p, l, g :: Claims(s', p, l, g) == Claims(s, p, l, g);
  }

  lemma GrowsClaim(c: Config, s: State, s': State, r: nat, k: nat, g: Group, it: Item)
    requires WellFormed(c) && History(c, s)
    requires Fits(c, Claim(r, k, g, it)) && Claim(r, k, g, it) !in s.done
    requires s'.mem == DoClaim(s, r, k, g, it)
    ensures Grows(s, s')
  {
    forall h
      ensures Claim(r, k, h, it) !in s.done
    {
      Why(c, s, Claim(r, k, h, it));
    }
    assert forall p, l, h :: Layout(s', p, l, h) == Layout(s, p, l, h);
    assert forall p, l, x, pos :: Packed(s', p, l, x, pos) == Packed(s, p, l, x, pos);
    assert forall p: nat, l: nat, i :: (p, l, i) != (r, k, it) ==> SlotReg(s', p, l, i) == SlotReg(s, p, l, i);
    assert forall p: nat, l: nat, h :: Claims(s, p, l, h) <= Claims(s', p, l, h);
  }

  lemma GrowsPoll(c: Config, s: State, s': State, r: nat, k: nat, g: Group)
    requires k < |c.plan| && Poll(r, k, g) !in s.done && s'.mem == DoPoll(c, s, r, k, g)
    ensures Grows(s, s')
  {
    assert forall p: nat, l: nat, h :: (p, l, h) != (r, k, g) ==> Layout(s', p, l, h) == Layout(s, p, l, h);
    assert forall p, l, x, pos :: Packed(s', p, l, x, pos) == Packed(s, p, l, x, pos);
    assert forall p, l, it :: SlotReg(s', p, l, it) == SlotReg(s, p, l, it);
    assert forall p, l, h :: Claims(s', p, l, h) == Claims(s, p, l, h);
  }

  lemma GrowsCopy(s: State, s': State, r: nat, k: nat, g: Group, it: Item)
    requires r < |s.round| && k == s.round[r] && s'.mem == DoCopy(s, r, k, g, it)
    ensures Grows(s, s')
  {
    assert forall p, l, h :: Layout(s', p, l, h) == Layout(s, p, l, h);
    assert forall p: nat, l: nat, x: nat, pos :: p != r || l != k ==>
        Packed(s', p, l, x, pos) == Packed(s, p, l, x, pos);
    assert forall p, l, it :: SlotReg(s', p, l, it) == SlotReg(s, p, l, it);
    assert forall p, l, h :: Claims(s', p, l, h) == Claims(s, p, l, h);
  }

  lemma DoGrows(c: Config, s: State, s': State, ev: Event)
    requires WellFormed(c) && History(c, s)
    requires Fits(c, ev) && ev.k == s.round[ev.r] && ev !in s.done && s'.mem == Effect(c, s, ev)
    ensures Grows(s, s')
  {
    EffectFrame(c, s, ev);
    if ev.Claim? {
      GrowsClaim(c, s, s', ev.r, ev.k, ev.g, ev.it);
    } else if ev.Poll? {
      GrowsPoll(c, s, s', ev.r, ev.k, ev.g);
    } else if ev.Copy? {
      GrowsCopy(s, s', ev.r, ev.k, ev.g, ev.it);
    } else {
      GrowsIfEqual(s, s');
    }
  }

  // ---- items ----

  ghost predicate SameItem(c: Config, s: State, s': State, r: nat, k: nat, g: Group, it: Item)
    requires k < |c.plan|
  {
    && SourceKey(c, s', r, k, g, it) == SourceKey(c, s, r, k, g, it)
    && DestKey(c, s', r, k, g, it) == DestKey(c, s, r, k, g, it)
    && Content(c, s', r, k, g, it) == Content(c, s, r, k, g, it)
  }

  /** A source that has published its count has drawn every slot below it. */
  lemma PolledClaims(c: Config, s: State, r: nat, k: nat, g: Group)
    requires WellFormed(c) && History(c, s) && ClaimOrder(c, s)
    requires Poll(r, k, g) in s.done && k < |c.plan| && c.plan[k].Dispatch?
    ensures |Claims(s, g.peer, k, Group(r, g.local))| == Sends(c, g.peer, k, Group(r, g.local))
  {
    var me := Group(r, g.local);
    Why(c, s, Poll(r, k, g));
    Why(c, s, LandSignal(g.peer, k, me));
    SignalledClaims(c, s, g.peer, k, me);
  }

  /** The range a combine launch sends from was packed by a finished dispatch launch. */
  lemma CombineReads(c: Config, s: State, r: nat, k: nat, g: Group)
    requires WellFormed(c) && History(c, s) && ClaimOrder(c, s)
    requires r < c.ranks && IsGroup(c, g) && k <= s.round[r] && k < |c.plan| && c.plan[k].Combine?
    ensures var d := c.plan[k].of;
      && d < s.round[r]
      && Poll(r, d, g) in s.done
      && |Claims(s, g.peer, d, Group(r, g.local))| == Sends(c, g.peer, d, Group(r, g.local))
  {
    var d := c.plan[k].of;
    assert Complete(c, s.done, r, d);
    PolledClaims(c, s, r, d, g);
  }

  lemma ItemStays(c: Config, s: State, s': State, r: nat, k: nat, g: Group, it: Item)
    requires WellFormed(c) && History(c, s) && ClaimOrder(c, s) && Grows(s, s')
    requires Send(r, k, g, it) in s.done || StageRow(r, k, g, it) in s.done
    ensures k < |c.plan| && SameItem(c, s, s', r, k, g, it)
  {
    Why(c, s, Send(r, k, g, it));
    Why(c, s, StageRow(r, k, g, it));
    if c.plan[k].Combine? {
      CombineReads(c, s, r, k, g);
      var me := Group(r, g.local);
      assert TaskAt(s', g.peer, c.plan[k].of, me, it.row) == TaskAt(s, g.peer, c.plan[k].of, me, it.row) by {
        assert Claims(s, g.peer, c.plan[k].of, me) <= Claims(s', g.peer, c.plan[k].of, me);
      }
      assert Layout(s', r, c.plan[k].of, g) == Layout(s, r, c.plan[k].of, g);
    }
  }
}
