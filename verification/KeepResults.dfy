/** Every step keeps the partial sums and the stored tokens at their specified values. */
module KeepResults {
  import opened Config
  import opened Protocol
  import opened Invariant
  import opened KeepHistory
  import opened KeepCounters
  import opened Stable
  import opened KeepData
  import opened KeepFlight

  /** A rank that finished a dispatch launch had drawn a slot for every one of its tasks. */
  lemma TaskClaimed(c: Config, s: State, r: nat, d: nat, g: Group, it: Item)
    requires WellFormed(c) && History(c, s) && ClaimOrder(c, s)
    requires r < c.ranks && d < s.round[r] && c.plan[d].Dispatch? && IsGroup(c, g) && IsTask(c, r, d, g, it)
    ensures Claim(r, d, g, it) in s.done
    ensures 0 <= SlotReg(s, r, d, it) < Sends(c, r, d, g)
    ensures TaskAt(s, r, d, g, SlotReg(s, r, d, it)) == it
  {
    assert Complete(c, s.done, r, d);
    Why(c, s, Retire(r, d, g));
    Why(c, s, Signal(r, d, g));
    assert IsItem(c, r, d, g, it);
    Why(c, s, Send(r, d, g, it));
    SignalledClaims(c, s, r, d, g);
  }

  /** The combine slot of (expert, token) holds the expert's output for that token. */
  lemma FoldReads(c: Config, s: State, r: nat, k: nat, t: nat, j: nat)
    requires WellFormed(c) && History(c, s) && ClaimOrder(c, s) && PackedRows(c, s) && Received(c, s)
    requires Fits(c, Fold(r, k, t, j)) && k == s.round[r] && AllPolled(c, s.done, r, k)
    requires TopkAt(c.batch(r, c.plan[k].of), t, j) >= 0
    ensures var b := c.batch(r, c.plan[k].of);
      && t < |b.x| && t < |b.topk| && j < |b.topk[t]| && b.topk[t][j] >= 0
      && var g := Group(b.topk[t][j] / c.locals, b.topk[t][j] % c.locals);
         Read(RecvHalf(s, r, k % 2), OutKey(g, t)) == RowCell(c.expert(g, b.x[t]))
  {
    var d := c.plan[k].of;
    var e := TopkAt(c.batch(r, d), t, j);
    assert WellFormedBatch(c, c.batch(r, d));
    GroupOfFlat(c, e);
    var g := GroupOf(c, e);
    TaskClaimed(c, s, r, d, g, Tok(t, j));
    Why(c, s, Poll(r, k, g));
    OutputLanded(c, s, r, k, g, SlotReg(s, r, d, Tok(t, j)));
  }

  /** Once the signal of an expert has landed, the slot of each of its rows holds the expert's output. */
  lemma OutputLanded(c: Config, s: State, d: nat, k: nat, g: Group, row: nat)
    requires WellFormed(c) && History(c, s) && ClaimOrder(c, s) && PackedRows(c, s) && Received(c, s)
    requires d < c.ranks && s.round[d] <= k < |c.plan| && c.plan[k].Combine? && IsGroup(c, g)
    requires LandSignal(g.peer, k, Group(d, g.local)) in s.done && row < Sends(c, d, c.plan[k].of, g)
    ensures var task := TaskAt(s, d, c.plan[k].of, g, row);
      && task.Tok? && task.t < |c.batch(d, c.plan[k].of).x|
      && Read(RecvHalf(s, d, k % 2), OutKey(g, task.t)) == RowCell(c.expert(g, c.batch(d, c.plan[k].of).x[task.t]))
  {
    var me, it := Group(d, g.local), Out(row);
    assert Group(g.peer, me.local) == g;
    Why(c, s, LandSignal(g.peer, k, me));
    Why(c, s, Land(g.peer, k, me, it));
    CombineItem(c, s, g.peer, k, me, it);
    assert ItemReceived(c, s, g.peer, k, me, it);
  }

  lemma ResultsFrame(c: Config, s: State, s': State)
    requires WellFormed(c) && Results(c, s)
    requires s'.mem.acc == s.mem.acc && s'.mem.out == s.mem.out
    requires forall ev :: ev in s'.done && ev !in s.done ==> !ev.Fold? && !ev.Store?
    ensures Results(c, s')
  {
    assert forall r, k, t, j :: AccAt(s', r, k, t, j) == AccAt(s, r, k, t, j);
  }

  lemma ResultsFold(c: Config, s: State, s': State, r: nat, k: nat, t: nat, j: nat)
    requires WellFormed(c) && Results(c, s) && k < |c.plan| && c.plan[k].Combine?
    requires j > 0 ==> Fold(r, k, t, j - 1) in s.done
    requires var b := c.batch(r, c.plan[k].of);
      TopkAt(b, t, j) >= 0 ==>
        var g := GroupOf(c, TopkAt(b, t, j));
        Read(RecvHalf(s, r, k % 2), OutKey(g, t)) == RowCell(c.expert(g, TokenAt(b, t)))
    requires s'.done == s.done + {Fold(r, k, t, j)} && s'.mem == DoFold(c, s, r, k, t, j)
    ensures Results(c, s')
  {
    assert forall p: nat, l: nat, u: nat, i: nat :: (p, l, u, i) != (r, k, t, j) ==>
      AccAt(s', p, l, u, i) == AccAt(s, p, l, u, i);
    assert AccAt(s', r, k, t, j) == FoldTo(c, r, c.plan[k].of, t, j + 1);
  }

  lemma ResultsStore(c: Config, s: State, s': State, r: nat, k: nat, t: nat)
    requires WellFormed(c) && Results(c, s) && k < |c.plan| && c.plan[k].Combine?
    requires var n := Width(c.batch(r, c.plan[k].of), t); n > 0 ==> Fold(r, k, t, n - 1) in s.done
    requires s'.done == s.done + {Store(r, k, t)} && s'.mem == DoStore(c, s, r, k, t)
    ensures Results(c, s')
  {
    assert forall p, l, u, i :: AccAt(s', p, l, u, i) == AccAt(s, p, l, u, i);
  }

  lemma FoldDo(c: Config, s: State, s': State, r: nat, k: nat, t: nat, j: nat)
    requires WellFormed(c) && History(c, s) && ClaimOrder(c, s) && PackedRows(c, s) && Received(c, s) && Results(c, s)
    requires Fits(c, Fold(r, k, t, j)) && k == s.round[r] && Ready(c, s, Fold(r, k, t, j))
    requires s'.done == s.done + {Fold(r, k, t, j)} && s'.mem == DoFold(c, s, r, k, t, j)
    ensures Results(c, s')
  {
    if TopkAt(c.batch(r, c.plan[k].of), t, j) >= 0 {
      FoldReads(c, s, r, k, t, j);
    }
    ResultsFold(c, s, s', r, k, t, j);
  }

  lemma StoreDo(c: Config, s: State, s': State, r: nat, k: nat, t: nat)
    requires WellFormed(c) && Results(c, s) && |s.round| == c.ranks
    requires Fits(c, Store(r, k, t)) && k == s.round[r] && Ready(c, s, Store(r, k, t))
    requires s'.done == s.done + {Store(r, k, t)} && s'.mem == DoStore(c, s, r, k, t)
    ensures Results(c, s')
  {
    ResultsStore(c, s, s', r, k, t);
  }

  lemma ResultsDo(c: Config, s: State, s': State, ev: Event)
    requires WellFormed(c) && History(c, s) && ClaimOrder(c, s) && PackedRows(c, s) && Received(c, s) && Results(c, s)
    requires Fits(c, ev) && ev.k == s.round[ev.r] && Ready(c, s, ev)
    requires s'.done == s.done + Recorded(c, ev) && s'.mem == Effect(c, s, ev)
    ensures Results(c, s')
  {
    EffectFrame(c, s, ev);
    if ev.Fold? {
      FoldDo(c, s, s', ev.r, ev.k, ev.t, ev.j);
    } else if ev.Store? {
      StoreDo(c, s, s', ev.r, ev.k, ev.t);
    } else {
      ResultsFrame(c, s, s');
    }
  }
}
