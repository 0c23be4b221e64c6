/** Every step keeps the data on its way: staged, queued, landed and packed rows are the right ones. */
module KeepData {
  import opened Config
  import opened Protocol
  import opened Invariant
  import opened KeepHistory
  import opened KeepCounters
  import opened Stable
  import opened Lockstep

  // ---- packed rows ----

  /** Slot `row` of source g.peer holds the message of the task that drew it. */
  lemma SlotHolds(c: Config, s: State, r: nat, k: nat, g: Group, row: nat)
    requires WellFormed(c) && History(c, s) && ClaimOrder(c, s) && Received(c, s)
    requires r < c.ranks && k == s.round[r] < |c.plan| && c.plan[k].Dispatch? && Poll(r, k, g) in s.done
    requires row < Sends(c, g.peer, k, Group(r, g.local))
    ensures var it, b := TaskAt(s, g.peer, k, Group(r, g.local), row), c.batch(g.peer, k);
      && it.Tok? && it.t < |b.x|
      && Read(RecvHalf(s, r, k % 2), SlotKey(g.local, g.peer, row)) == TokenCell(it.t, b.x[it.t])
      && Message(c, g.peer, k, it) == TokenCell(it.t, b.x[it.t])
  {
    var me := Group(r, g.local);
    PolledClaims(c, s, r, k, g);
    var it := Claims(s, g.peer, k, me)[row];
    Why(c, s, Poll(r, k, g));
    Why(c, s, LandSignal(g.peer, k, me));
    Why(c, s, Claim(g.peer, k, me, it));
    assert Land(g.peer, k, me, it) in s.done;
  }

  lemma PackedRowsFrame(c: Config, s: State, s': State)
    requires WellFormed(c) && History(c, s) && ClaimOrder(c, s) && PackedRows(c, s) && Grows(s, s')
    requires s'.mem.packed == s.mem.packed && s.done <= s'.done
    requires forall ev :: ev in s'.done && ev !in s.done ==> !ev.Copy?
    ensures PackedRows(c, s')
  {
    forall r: nat, k: nat, g, it | Copy(r, k, g, it) in s'.done
      ensures PackedRow(c, s', r, k, g, it)
    {
      CopiedStays(c, s, s', r, k, g, it);
    }
  }

  /** What a copied row says stays true while other positions are written. */
  lemma CopiedStays(c: Config, s: State, s': State, r: nat, k: nat, g: Group, it: Item)
    requires WellFormed(c) && History(c, s) && ClaimOrder(c, s) && PackedRows(c, s) && Grows(s, s')
    requires Copy(r, k, g, it) in s.done
    requires Packed(s', r, k, g.local, Layout(s, r, k, g).begin + RowIndex(it))
             == Packed(s, r, k, g.local, Layout(s, r, k, g).begin + RowIndex(it))
    ensures PackedRow(c, s', r, k, g, it)
  {
    var me := Group(r, g.local);
    Why(c, s, Copy(r, k, g, it));
    PolledClaims(c, s, r, k, g);
    assert PackedRow(c, s, r, k, g, it);
    assert Claims(s, g.peer, k, me) <= Claims(s', g.peer, k, me);
  }

  lemma CopiedNow(c: Config, s: State, s': State, r: nat, k: nat, g: Group, it: Item)
    requires WellFormed(c) && History(c, s) && ClaimOrder(c, s) && Received(c, s)
    requires Fits(c, Copy(r, k, g, it)) && Poll(r, k, g) in s.done && k == s.round[r]
    requires s'.mem == DoCopy(s, r, k, g, it)
    ensures PackedRow(c, s', r, k, g, it)
  {
    SlotHolds(c, s, r, k, g, it.row);
    assert Layout(s', r, k, g) == Layout(s, r, k, g);
    assert Claims(s', g.peer, k, Group(r, g.local)) == Claims(s, g.peer, k, Group(r, g.local));
  }

  lemma CopiedArrival(c: Config, s: State, ev: Event)
    requires WellFormed(c) && History(c, s) && ev.Copy? && ev in s.done
    ensures Poll(ev.r, ev.k, ev.g) in s.done && IsArrival(c, ev.r, ev.k, ev.g, ev.it)
  {
    Why(c, s, ev);
  }

  lemma CopiedBefore(c: Config, s: State, s': State, r: nat, k: nat, g: Group, it: Item, ev: Event)
    requires WellFormed(c) && History(c, s) && ClaimOrder(c, s) && Ranges(c, s) && PackedRows(c, s) && Grows(s, s')
    requires Fits(c, Copy(r, k, g, it)) && Poll(r, k, g) in s.done && s'.mem == DoCopy(s, r, k, g, it)
    requires ev.Copy? && ev in s.done && ev != Copy(r, k, g, it)
    ensures PackedRow(c, s', ev.r, ev.k, ev.g, ev.it)
  {
    CopiedArrival(c, s, ev);
    PositionsDiffer(c, s, r, k, g, it, ev.r, ev.k, ev.g, ev.it);
    CopiedStays(c, s, s', ev.r, ev.k, ev.g, ev.it);
  }

  lemma PackedRowsCopy(c: Config, s: State, s': State, r: nat, k: nat, g: Group, it: Item)
    requires WellFormed(c) && History(c, s) && ClaimOrder(c, s) && Ranges(c, s) && PackedRows(c, s) && Received(c, s)
    requires Grows(s, s')
    requires Fits(c, Copy(r, k, g, it)) && Poll(r, k, g) in s.done && k == s.round[r]
    requires s'.done == s.done + {Copy(r, k, g, it)} && s'.mem == DoCopy(s, r, k, g, it)
    ensures PackedRows(c, s')
  {
    CopiedNow(c, s, s', r, k, g, it);
    forall p: nat, l: nat, h, i | Copy(p, l, h, i) in s'.done && Copy(p, l, h, i) != Copy(r, k, g, it)
      ensures PackedRow(c, s', p, l, h, i)
    {
      CopiedBefore(c, s, s', r, k, g, it, Copy(p, l, h, i));
    }
  }

  /** Different arrivals are packed at different positions. */
  lemma PositionsDiffer(c: Config, s: State, r: nat, k: nat, g: Group, it: Item, p: nat, l: nat, h: Group, i: Item)
    requires WellFormed(c) && History(c, s) && Ranges(c, s)
    requires r < c.ranks && k < |c.plan| && c.plan[k].Dispatch?
    requires Poll(r, k, g) in s.done && IsArrival(c, r, k, g, it)
    requires Poll(p, l, h) in s.done && IsArrival(c, p, l, h, i)
    requires (r, k, g, it) != (p, l, h, i)
    ensures (r, k, g.local, Layout(s, r, k, g).begin + it.row) != (p, l, h.local, Layout(s, p, l, h).begin + i.row)
  {
  }

  // ---- combine items ----

  /** A combine item sends back the expert's output for the token whose message was packed there. */
  lemma CombineItem(c: Config, s: State, r: nat, k: nat, g: Group, it: Item)
    requires WellFormed(c) && History(c, s) && ClaimOrder(c, s) && PackedRows(c, s)
    requires r < c.ranks && k <= s.round[r] && k < |c.plan| && c.plan[k].Combine?
    requires IsGroup(c, g) && IsItem(c, r, k, g, it)
    ensures var d, me := c.plan[k].of, Group(r, g.local);
      var task := TaskAt(s, g.peer, d, me, it.row);
      && Claim(g.peer, d, me, task) in s.done && IsTask(c, g.peer, d, me, task)
      && Packed(s, r, d, g.local, Pos(c, s, r, k, g, it)) == TokenCell(task.t, c.batch(g.peer, d).x[task.t])
      && DestKey(c, s, r, k, g, it) == OutKey(me, task.t)
      && Output(c, s, r, k, g, it) == Content(c, s, r, k, g, it)
      && Content(c, s, r, k, g, it) == RowCell(c.expert(me, c.batch(g.peer, d).x[task.t]))
  {
    var d, me := c.plan[k].of, Group(r, g.local);
    CombineReads(c, s, r, k, g);
    assert Complete(c, s.done, r, d);
    assert IsArrival(c, r, d, g, it);
    assert PackedRow(c, s, r, d, g, it);
    Why(c, s, Claim(g.peer, d, me, Claims(s, g.peer, d, me)[it.row]));
  }

  // ---- send buffers ----

  ghost predicate StagedToken(c: Config, s: State, r: nat, k: nat, t: nat)
  {
    Holds(SendHalf(s, r, k % 2), k, TokenKey(t), Message(c, r, k, Tok(t, 0)))
  }

  ghost predicate StagedRow(c: Config, s: State, r: nat, k: nat, g: Group, it: Item)
    requires k < |c.plan|
  {
    Holds(SendHalf(s, r, k % 2), k, SourceKey(c, s, r, k, g, it), Content(c, s, r, k, g, it))
  }

  lemma StagedFrame(c: Config, s: State, s': State)
    requires WellFormed(c) && History(c, s) && ClaimOrder(c, s) && Staged(c, s) && Grows(s, s')
    requires s'.mem.send == s.mem.send && |s'.round| == c.ranks && s.done <= s'.done
    requires forall r :: 0 <= r < c.ranks ==> s.round[r] <= s'.round[r]
    requires forall ev :: ev in s'.done && ev !in s.done ==> !ev.Stage? && !ev.StageRow?
    ensures Staged(c, s')
  {
    assert forall r, h :: SendHalf(s', r, h) == SendHalf(s, r, h);
    forall r: nat, k: nat, g, it | StageRow(r, k, g, it) in s'.done && r < c.ranks && k < |c.plan| &&
        s'.round[r] <= k + 1
      ensures StagedRow(c, s', r, k, g, it)
    {
      ItemStays(c, s, s', r, k, g, it);
      assert StagedRow(c, s, r, k, g, it);
    }
  }

  /** Filling the send buffer of launch k leaves everything else that is still staged in place. */
  lemma PutKeeps(c: Config, s: State, s': State, r: nat, k: nat, key: Key, v: Cell, ev: Event, key': Key, v': Cell)
    requires WellFormed(c) && History(c, s) && r < c.ranks && k == s.round[r]
    requires s'.mem.send == PutSend(s, r, k, key, v)
    requires ev in s.done && ev.r < c.ranks && s.round[ev.r] <= ev.k + 1
    requires Holds(SendHalf(s, ev.r, ev.k % 2), ev.k, key', v')
    requires (ev.r, ev.k) == (r, k) && key' == key ==> v' == v
    ensures Holds(SendHalf(s', ev.r, ev.k % 2), ev.k, key', v')
  {
    Why(c, s, ev);
  }

  lemma StagedStage(c: Config, s: State, s': State, r: nat, k: nat, t: nat)
    requires WellFormed(c) && History(c, s) && ClaimOrder(c, s) && Staged(c, s) && Grows(s, s')
    requires Fits(c, Stage(r, k, t)) && k == s.round[r]
    requires s'.round == s.round && s'.done == s.done + {Stage(r, k, t)}
    requires s'.mem.send == PutSend(s, r, k, TokenKey(t), Message(c, r, k, Tok(t, 0)))
    ensures Staged(c, s')
  {
    var key, v := TokenKey(t), Message(c, r, k, Tok(t, 0));
    forall p: nat, l: nat, u: nat | Stage(p, l, u) in s'.done && p < c.ranks && s.round[p] <= l + 1
      ensures StagedToken(c, s', p, l, u)
    {
      if (p, l, u) != (r, k, t) {
        PutKeeps(c, s, s', r, k, key, v, Stage(p, l, u), TokenKey(u), Message(c, p, l, Tok(u, 0)));
      }
    }
    forall p: nat, l: nat, g, it | StageRow(p, l, g, it) in s'.done && p < c.ranks && l < |c.plan| &&
        s.round[p] <= l + 1
      ensures StagedRow(c, s', p, l, g, it)
    {
      Why(c, s, StageRow(p, l, g, it));
      StagedRowStays(c, s, s', r, k, key, v, p, l, g, it);
    }
  }

  lemma StagedRowStays(c: Config, s: State, s': State, r: nat, k: nat, key: Key, v: Cell,
                       p: nat, l: nat, h: Group, i: Item)
    requires WellFormed(c) && History(c, s) && ClaimOrder(c, s) && Staged(c, s) && Grows(s, s')
    requires r < c.ranks && k == s.round[r] && s'.mem.send == PutSend(s, r, k, key, v)
    requires StageRow(p, l, h, i) in s.done && p < c.ranks && l < |c.plan| && s.round[p] <= l + 1
    requires (p, l) == (r, k) ==> key != SourceKey(c, s, p, l, h, i)
    ensures StagedRow(c, s', p, l, h, i)
  {
    ItemStays(c, s, s', p, l, h, i);
    PutKeeps(c, s, s', r, k, key, v, StageRow(p, l, h, i), SourceKey(c, s, p, l, h, i), Content(c, s, p, l, h, i));
  }

  lemma StagedStageRow(c: Config, s: State, s': State, r: nat, k: nat, g: Group, it: Item)
    requires WellFormed(c) && History(c, s) && ClaimOrder(c, s) && Ranges(c, s) && Staged(c, s) && Grows(s, s')
    requires Fits(c, StageRow(r, k, g, it)) && k == s.round[r]
    requires SameItem(c, s, s', r, k, g, it)
    requires s'.round == s.round && s'.done == s.done + {StageRow(r, k, g, it)}
    requires s'.mem.send == PutSend(s, r, k, SourceKey(c, s, r, k, g, it), Content(c, s, r, k, g, it))
    ensures Staged(c, s')
  {
    var key, v := SourceKey(c, s, r, k, g, it), Content(c, s, r, k, g, it);
    forall p: nat, l: nat, u: nat | Stage(p, l, u) in s'.done && p < c.ranks && s.round[p] <= l + 1
      ensures StagedToken(c, s', p, l, u)
    {
      PutKeeps(c, s, s', r, k, key, v, Stage(p, l, u), TokenKey(u), Message(c, p, l, Tok(u, 0)));
    }
    forall p: nat, l: nat, h, i | StageRow(p, l, h, i) in s'.done && p < c.ranks && l < |c.plan| && s.round[p] <= l + 1
      ensures StagedRow(c, s', p, l, h, i)
    {
      if StageRow(p, l, h, i) != StageRow(r, k, g, it) {
        OtherSource(c, s, r, k, g, it, p, l, h, i);
        StagedRowStays(c, s, s', r, k, key, v, p, l, h, i);
      }
    }
  }

  lemma OtherSource(c: Config, s: State, r: nat, k: nat, g: Group, it: Item, p: nat, l: nat, h: Group, i: Item)
    requires WellFormed(c) && History(c, s) && Ranges(c, s)
    requires Fits(c, StageRow(r, k, g, it)) && k == s.round[r] && StageRow(p, l, h, i) in s.done
    requires StageRow(p, l, h, i) != StageRow(r, k, g, it)
    ensures (p, l) == (r, k) ==> SourceKey(c, s, p, l, h, i) != SourceKey(c, s, r, k, g, it)
  {
    Why(c, s, StageRow(p, l, h, i));
    if (p, l) == (r, k) {
      SourcesDiffer(c, s, r, k, g, it, h, i);
    }
  }

  lemma SourcesDiffer(c: Config, s: State, r: nat, k: nat, g: Group, it: Item, h: Group, i: Item)
    requires WellFormed(c) && History(c, s) && Ranges(c, s)
    requires r < c.ranks && k <= s.round[r] && k < |c.plan| && c.plan[k].Combine?
    requires IsGroup(c, g) && IsItem(c, r, k, g, it) && IsGroup(c, h) && IsItem(c, r, k, h, i)
    requires g != h || it != i
    ensures SourceKey(c, s, r, k, g, it) != SourceKey(c, s, r, k, h, i)
  {
    var d := c.plan[k].of;
    PolledRange(c, s, r, k, g);
    PolledRange(c, s, r, k, h);
    PositionsDiffer(c, s, r, d, g, it, r, d, h, i);
  }
}
