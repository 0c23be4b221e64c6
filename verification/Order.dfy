/** The order in which every run keeps the steps of one warp, one block and one warp group, said on the indices
    that the kernels compute. */
module Order {
  import opened Config
  import opened Protocol
  import opened Invariant
  import opened KeepHistory
  import opened KeepInv
  import opened Theorems

  /** Token t of a dispatch was staged, and each used entry of it was sent and added to the finish counter. */
  ghost predicate TokenSent(c: Config, done: set<Event>, r: nat, k: nat, t: nat)
    requires c.locals > 0
  {
    && Stage(r, k, t) in done
    && (forall g, it :: Names(c, c.batch(r, k), g, it) && it.t == t ==> Finish(r, k, g, it) in done)
  }

  /** Before a step of dispatch: a lane clears and tags every 32nd word; the first block tags all experts before it
      counts; a block counts its eight experts in order; it takes every (number of blocks)th token, one after the
      other; its groups wait for all its tokens and counts; a warp packs every fourth row. */
  ghost predicate DispatchOrder(c: Config, done: set<Event>, ev: Event)
    requires c.locals > 0 && c.experts > 0
  {
    var r, k, blocks := ev.r, ev.k, (c.experts + 7) / 8;
    var e := if ev.Tag? || ev.Count? || ev.Signal? then ev.g.peer * c.locals + ev.g.local else 0;
    && (ev.Clean? && ev.w >= 32 ==> Clean(r, k, ev.w - 32) in done)
    && (ev.Tag? ==> forall h :: IsGroup(c, h) && h.peer * c.locals + h.local + 32 == e ==> Tag(r, k, h) in done)
    && (ev.Count? ==> forall h ::
          IsGroup(c, h) && h.peer * c.locals + h.local < e && (h.peer * c.locals + h.local) / 8 == e / 8 ==>
            Count(r, k, h) in done)
    && (ev.Count? && e < 8 ==> forall h :: IsGroup(c, h) ==> Tag(r, k, h) in done)
    && (ev.Stage? && ev.t >= blocks ==> TokenSent(c, done, r, k, ev.t - blocks))
    && (ev.Signal? ==> forall t: nat :: t < |c.batch(r, k).x| && t % blocks == e / 8 ==> TokenSent(c, done, r, k, t))
    && (ev.Signal? ==> forall h ::
          IsGroup(c, h) && (h.peer * c.locals + h.local) / 8 == e / 8 ==> Count(r, k, h) in done)
    && (ev.Copy? && ev.it.Out? && ev.it.row >= 4 ==> Copy(r, k, ev.g, Out(ev.it.row - 4)) in done)
  }

  /** Before a step of combine: a warp sends every fourth row of its group, and the first warp of all raises the flag
      before; a group signals and waits only when its rows are sent; a block takes every (number of blocks)th token,
      one after the other, entry after entry. */
  ghost predicate CombineOrder(c: Config, done: set<Event>, ev: Event)
    requires c.experts > 0 && c.locals > 0 && ev.k < |c.plan| && c.plan[ev.k].Combine?
  {
    var r, k, blocks := ev.r, ev.k, (c.experts + 7) / 8;
    && (ev.Clean? && ev.w >= 32 ==> Clean(r, k, ev.w - 32) in done)
    && ((ev.StageRow? || ev.Send?) && ev.it.Out? && ev.it.row >= 4 ==> Send(r, k, ev.g, Out(ev.it.row - 4)) in done)
    && ((ev.StageRow? || ev.Send?) && ev.it.Out? && ev.it.row % 4 == 0 && ev.g == Group(0, 0) ==> Raise(r, k) in done)
    && (ev.Signal? || ev.Poll? ==> AllSent(c, done, r, k, ev.g))
    && (ev.Signal? || ev.Poll? ==> ev.g == Group(0, 0) ==> Raise(r, k) in done)
    && ((ev.Fold? || ev.Store?) && ev.t >= blocks ==> Store(r, k, ev.t - blocks) in done)
    && (ev.Fold? && ev.j > 0 ==> Fold(r, k, ev.t, ev.j - 1) in done)
    && (ev.Store? ==> forall j: nat :: j < Width(c.batch(r, Origin(c, k)), ev.t) ==> Fold(r, k, ev.t, j) in done)
  }

  ghost predicate InOrder(c: Config, done: set<Event>, ev: Event)
    requires c.experts > 0 && c.locals > 0
  {
    ev.k < |c.plan| && if c.plan[ev.k].Dispatch? then DispatchOrder(c, done, ev) else CombineOrder(c, done, ev)
  }

  lemma TokenDoneIsSent(c: Config, done: set<Event>, r: nat, k: nat, t: nat)
    requires WellFormed(c) && r < c.ranks && k < |c.plan| && c.plan[k].Dispatch? && TokenDone(c, done, r, k, t)
    ensures TokenSent(c, done, r, k, t)
  {
    forall g, it | Names(c, c.batch(r, k), g, it) && it.t == t
      ensures Finish(r, k, g, it) in done
    {
      TaskNames(c, r, k, g, it);
      assert it == Tok(t, it.j);
    }
  }

  lemma DispatchInOrder(c: Config, s: State, ev: Event)
    requires WellFormed(c) && ev.r < c.ranks && ev.k < |c.plan| && c.plan[ev.k].Dispatch? && DispatchTurn(c, s, ev)
    ensures c.experts > 0 && DispatchOrder(c, s.done, ev)
  {
    HasBlock(c);
    if ev.Stage? && ev.t >= Blocks(c) {
      TokenDoneIsSent(c, s.done, ev.r, ev.k, ev.t - Blocks(c));
    } else if ev.Signal? {
      forall t: nat | t < |c.batch(ev.r, ev.k).x| && t % Blocks(c) == BlockOf(c, ev.g)
        ensures TokenSent(c, s.done, ev.r, ev.k, t)
      {
        assert TokenBlock(c, t) == BlockOf(c, ev.g);
        TokenDoneIsSent(c, s.done, ev.r, ev.k, t);
      }
    }
  }

  lemma CombineInOrder(c: Config, s: State, ev: Event)
    requires WellFormed(c) && History(c, s) && Ranges(c, s)
    requires ev.r < c.ranks && ev.k == s.round[ev.r] < |c.plan| && c.plan[ev.k].Combine?
    requires CombineReady(c, s, ev) && CombineTurn(c, s, ev)
    ensures c.experts > 0 && CombineOrder(c, s.done, ev)
  {
    HasBlock(c);
    if ev.Signal? || ev.Poll? {
      PolledRange(c, s, ev.r, ev.k, ev.g);
    }
  }

  lemma SentGrows(c: Config, done: set<Event>, done': set<Event>, r: nat, k: nat, t: nat)
    requires c.locals > 0 && done <= done' && TokenSent(c, done, r, k, t)
    ensures TokenSent(c, done', r, k, t)
  {
  }

  lemma OrderGrows(c: Config, done: set<Event>, done': set<Event>, ev: Event)
    requires c.experts > 0 && c.locals > 0 && done <= done' && InOrder(c, done, ev)
    ensures InOrder(c, done', ev)
  {
    forall t: nat | TokenSent(c, done, ev.r, ev.k, t)
      ensures TokenSent(c, done', ev.r, ev.k, t)
    {
      SentGrows(c, done, done', ev.r, ev.k, t);
    }
    if c.plan[ev.k].Combine? && (ev.Signal? || ev.Poll?) {
      assert AllSent(c, done', ev.r, ev.k, ev.g);
    }
  }

  lemma TurnInOrder(c: Config, s: State, ev: Event)
    requires WellFormed(c) && c.experts > 0 && History(c, s) && Ranges(c, s)
    requires ev.r < c.ranks && ev.k == s.round[ev.r] < |c.plan| && Ready(c, s, ev) && InTurn(c, s, ev)
    ensures InOrder(c, s.done, ev)
  {
    if c.plan[ev.k].Dispatch? {
      DispatchInOrder(c, s, ev);
    } else {
      CombineInOrder(c, s, ev);
    }
  }

  /** A new step that is no arrival is the one that its warp has just taken. */
  lemma NewStep(c: Config, s: State, a: Action, ev: Event)
    requires WellFormed(c) && |s.round| == c.ranks && Enabled(c, s, a)
    requires ev !in s.done && ev in Apply(c, s, a).done && !ev.Land? && !ev.LandSignal?
    ensures a == Do(ev)
  {
  }

  lemma NextInOrder(c: Config, s: State, s': State, ev: Event)
    requires WellFormed(c) && c.experts > 0 && History(c, s) && Ranges(c, s) && Next(c, s, s')
    requires ev !in s.done && ev in s'.done && !ev.Land? && !ev.LandSignal?
    ensures InOrder(c, s.done, ev)
  {
    var a :| Enabled(c, s, a) && s' == Apply(c, s, a);
    NewStep(c, s, a, ev);
    TurnInOrder(c, s, ev);
  }

  /** In every state of every run, whatever step was taken, the steps that its warp, block or group has to take
      before it were taken. */
  lemma {:induction false} OrderIsKept(c: Config, run: seq<State>, i: nat, ev: Event)
    requires WellFormed(c) && IsRun(c, run) && i < |run| && ev in run[i].done && !ev.Land? && !ev.LandSignal?
    ensures c.experts > 0 && InOrder(c, run[i].done, ev)
  {
    HasBlock(c);
    if i > 0 {
      if ev in run[i - 1].done {
        OrderIsKept(c, run, i - 1, ev);
      } else {
        NewInOrder(c, run, i, ev);
      }
      DoneGrows(c, run, i);
      OrderGrows(c, run[i - 1].done, run[i].done, ev);
    }
  }

  lemma NewInOrder(c: Config, run: seq<State>, i: nat, ev: Event)
    requires WellFormed(c) && c.experts > 0 && IsRun(c, run) && 0 < i < |run|
    requires ev in run[i].done && ev !in run[i - 1].done && !ev.Land? && !ev.LandSignal?
    ensures InOrder(c, run[i - 1].done, ev)
  {
    RunInv(c, run, i - 1);
    assert StepAt(c, run, i);
    NextInOrder(c, run[i - 1], run[i], ev);
  }

  lemma DoneGrows(c: Config, run: seq<State>, i: nat)
    requires WellFormed(c) && IsRun(c, run) && 0 < i < |run|
    ensures run[i - 1].done <= run[i].done
  {
    assert StepAt(c, run, i);
  }
}
