/** What the dispatch/combine protocol guarantees, for every run: any number of ranks, any launch
    plan, any routing tables, any interleaving and any mix of direct and fabric transfers. */
module Theorems {
  import opened Config
  import opened Protocol
  import opened Invariant
  import opened KeepHistory
  import opened KeepCounters
  import opened KeepRanges
  import opened Stable
  import opened Lockstep
  import opened KeepWords
  import opened KeepData
  import opened KeepFlight
  import opened KeepResults
  import opened KeepInv
  import opened Progress

  // ---- the round trip ----

  /** In-order weighted sum over the first n top-k entries of token t, skipping unused ones: the weight of each
      entry times what the expert it names makes of the token's row. */
  function WeightedFold(c: Config, b: Batch, t: nat, n: nat): Acc
    requires c.locals > 0 && t < |b.x| && t < |b.topk| && t < |b.weights|
    requires n <= |b.topk[t]| && n <= |b.weights[t]|
  {
    if n == 0 then c.zero
    else
      var acc := WeightedFold(c, b, t, n - 1);
      var e := b.topk[t][n - 1];
      if e < 0 then acc
      else c.mac(acc, b.weights[t][n - 1], c.expert(Group(e / c.locals, e % c.locals), b.x[t]))
  }

  /** The row is what token t must hold after its round trip. */
  ghost predicate IsResult(c: Config, b: Batch, t: nat, row: Row)
    requires c.locals > 0
  {
    && t < |b.x| && t < |b.topk| && t < |b.weights| && |b.weights[t]| == |b.topk[t]|
    && row == c.fin(WeightedFold(c, b, t, |b.topk[t]|))
  }

  lemma {:induction false} FoldIsWeighted(c: Config, r: nat, d: nat, t: nat, n: nat)
    requires c.locals > 0
    requires var b := c.batch(r, d);
      t < |b.x| && t < |b.topk| && t < |b.weights| && n <= |b.topk[t]| == |b.weights[t]|
    ensures FoldTo(c, r, d, t, n) == WeightedFold(c, c.batch(r, d), t, n)
  {
    if n > 0 {
      FoldIsWeighted(c, r, d, t, n - 1);
    }
  }

  /** Dispatch, any expert function on the packed rows, then combine: a rank that has left a combine
      launch holds at every token the in-order weighted fold of its experts' outputs, whatever slots
      and packing order the atomics produced. */
  lemma EndToEnd(c: Config, run: seq<State>, i: nat, r: nat, k: nat, t: nat)
    requires WellFormed(c) && IsRun(c, run) && i < |run|
    requires r < c.ranks && k < |c.plan| && c.plan[k].Combine? && t < |c.batch(r, c.plan[k].of).x|
    requires run[i].round[r] > k
    ensures (r, k, t) in run[i].mem.out
    ensures IsResult(c, c.batch(r, c.plan[k].of), t, run[i].mem.out[(r, k, t)])
  {
    RunInv(c, run, i);
    assert Complete(c, run[i].done, r, k);
    var b := c.batch(r, c.plan[k].of);
    assert WellFormedBatch(c, b);
    FoldIsWeighted(c, r, c.plan[k].of, t, |b.topk[t]|);
  }

  /** A run that cannot go on has finished, with every rank past every launch and every combine
      result right, exactly when the grid has more than one block (or there is nothing to launch).
      Together with RunsAreFinite this is total correctness. */
  lemma TotalCorrectness(c: Config, run: seq<State>)
    requires WellFormed(c) && IsRun(c, run) && !CanStep(c, run[|run| - 1])
    ensures AllDone(c, run[|run| - 1]) <==> c.experts > 8 || c.plan == []
    ensures AllDone(c, run[|run| - 1]) ==> AllResults(c, run[|run| - 1])
  {
    var last := |run| - 1;
    var s := run[last];
    RunInv(c, run, last);
    if Blocks(c) > 1 {
      if exists r :: 0 <= r < c.ranks && s.round[r] < |c.plan| {
        NoDeadlock(c, s);
      }
    } else {
      OneBlockTraps(c, run, last);
      assert s.round[0] == 0;
    }
    if AllDone(c, s) {
      forall r: nat, k: nat, t: nat | r < c.ranks && k < |c.plan| && c.plan[k].Combine? &&
          t < |c.batch(r, c.plan[k].of).x|
        ensures HasResult(c, s, r, k, t)
      {
        EndToEnd(c, run, last, r, k, t);
      }
    }
  }

  ghost predicate AllDone(c: Config, s: State)
  {
    |s.round| == c.ranks && forall r :: 0 <= r < c.ranks ==> s.round[r] == |c.plan|
  }

  ghost predicate HasResult(c: Config, s: State, r: nat, k: nat, t: nat)
    requires c.locals > 0 && k < |c.plan| && c.plan[k].Combine?
  {
    (r, k, t) in s.mem.out && IsResult(c, c.batch(r, c.plan[k].of), t, s.mem.out[(r, k, t)])
  }

  ghost predicate AllResults(c: Config, s: State)
    requires c.locals > 0
  {
    forall r: nat, k: nat, t: nat ::
      r < c.ranks && k < |c.plan| && c.plan[k].Combine? && t < |c.batch(r, c.plan[k].of).x| ==> HasResult(c, s, r, k, t)
  }

  /** With a single block no rank ever cleans a word or leaves its first launch. */
  ghost predicate Trapped(c: Config, s: State)
  {
    && (forall r :: 0 <= r < |s.round| ==> s.round[r] == 0)
    && (forall r, k, w :: Clean(r, k, w) !in s.done)
  }

  /** Nobody retires, because a signal needs clean words. */
  lemma NoneRetires(c: Config, s: State, r: nat)
    requires WellFormed(c) && History(c, s) && Trapped(c, s)
    ensures Retire(r, 0, Group(0, 0)) !in s.done
  {
    FirstClean(c, s.done, r, 0);
    Why(c, s, Retire(r, 0, Group(0, 0)));
    Why(c, s, Signal(r, 0, Group(0, 0)));
  }

  lemma FirstClean(c: Config, done: set<Event>, r: nat, k: nat)
    requires WellFormed(c)
    ensures AllClean(c, done, r, k) ==> Clean(r, k, 0) in done
  {
    HasBlock(c);
  }

  lemma NoneCleans(c: Config, s: State, ev: Event)
    requires WellFormed(c) && Blocks(c) <= 1 && Trapped(c, s) && Enabled(c, s, Do(ev))
    ensures !ev.Clean?
  {
    assert c.plan[0].Dispatch?;
  }

  lemma TrappedStep(c: Config, s: State, a: Action)
    requires WellFormed(c) && Blocks(c) <= 1 && History(c, s) && Trapped(c, s) && Enabled(c, s, a)
    ensures Trapped(c, Apply(c, s, a))
  {
    if a.Advance? {
      NoneRetires(c, s, a.r);
    } else if a.Do? {
      NoneCleans(c, s, a.ev);
    }
  }

  /** Dispatch asserts that the grid has more than one block: with one, nothing is ever finished. */
  lemma {:induction false} OneBlockTraps(c: Config, run: seq<State>, i: nat)
    requires WellFormed(c) && IsRun(c, run) && i < |run| && c.experts <= 8
    ensures Trapped(c, run[i])
  {
    if i > 0 {
      OneBlockTraps(c, run, i - 1);
      RunInv(c, run, i - 1);
      assert StepAt(c, run, i);
      TrappedNext(c, run[i - 1], run[i]);
    }
  }

  lemma TrappedNext(c: Config, s: State, s': State)
    requires WellFormed(c) && c.experts <= 8 && History(c, s) && Trapped(c, s) && Next(c, s, s')
    ensures Trapped(c, s')
  {
    var a :| Enabled(c, s, a) && s' == Apply(c, s, a);
    TrappedStep(c, s, a);
  }

  // ---- signals and data ----

  /** Entry j of token t names the expert. */
  predicate Names(c: Config, b: Batch, g: Group, it: Item)
    requires c.locals > 0
  {
    && it.Tok? && it.t < |b.x| && it.t < |b.topk| && it.j < |b.topk[it.t]|
    && b.topk[it.t][it.j] >= 0
    && b.topk[it.t][it.j] / c.locals == g.peer && b.topk[it.t][it.j] % c.locals == g.local
  }

  /** Every used entry of the table that names the expert, each exactly once. */
  ghost predicate ListsTasks(c: Config, b: Batch, g: Group, order: seq<Item>)
    requires c.locals > 0
  {
    && (forall i, j :: 0 <= i < j < |order| ==> order[i] != order[j])
    && (forall it :: it in order <==> Names(c, b, g, it))
  }

  lemma TaskNames(c: Config, r: nat, k: nat, g: Group, it: Item)
    requires WellFormed(c) && r < c.ranks && k < |c.plan| && c.plan[k].Dispatch?
    ensures IsTask(c, r, k, g, it) <==> Names(c, c.batch(r, k), g, it)
  {
    assert WellFormedBatch(c, c.batch(r, k));
  }

  /** Once all is sent to an expert, the order in which its tasks drew their slots lists each exactly once. */
  lemma AllDrawn(c: Config, s: State, r: nat, k: nat, g: Group)
    requires WellFormed(c) && History(c, s) && ClaimOrder(c, s)
    requires r < c.ranks && k < |c.plan| && c.plan[k].Dispatch? && AllSent(c, s.done, r, k, g)
    ensures |Claims(s, r, k, g)| == Sends(c, r, k, g) && ListsTasks(c, c.batch(r, k), g, Claims(s, r, k, g))
  {
    var order := Claims(s, r, k, g);
    forall it
      ensures it in order <==> Names(c, c.batch(r, k), g, it)
      ensures IsItem(c, r, k, g, it) ==> Claim(r, k, g, it) in s.done
    {
      TaskNames(c, r, k, g, it);
      Why(c, s, Claim(r, k, g, it));
      Why(c, s, Send(r, k, g, it));
    }
    ClaimsBounded(c, s, r, k, g);
  }

  lemma SignalledOrder(c: Config, s: State, r: nat, k: nat, g: Group)
    requires WellFormed(c) && History(c, s) && ClaimOrder(c, s)
    requires k < |c.plan| && c.plan[k].Dispatch? && Signal(r, k, g) in s.done
    ensures |Claims(s, r, k, g)| == Sends(c, r, k, g) && ListsTasks(c, c.batch(r, k), g, Claims(s, r, k, g))
  {
    Why(c, s, Signal(r, k, g));
    AllDrawn(c, s, r, k, g);
  }

  /** Slot `row` holds token index and row of the task. */
  ghost predicate SlotHas(s: State, d: nat, k: nat, g: Group, row: nat, b: Batch, it: Item)
  {
    && it.Tok? && it.t < |b.x|
    && Read(RecvHalf(s, d, k % 2), SlotKey(g.local, g.peer, row)) == TokenCell(it.t, b.x[it.t])
  }

  /** When the signal word of a local expert and a source reads non-zero in a dispatch launch, it reads -n-1 for
      the number n of entries of the source's table that name the expert, and slots 0..n-1 already hold their
      messages: token index and row. */
  lemma SignalImpliesData(c: Config, run: seq<State>, i: nat, d: nat, k: nat, g: Group) returns (order: seq<Item>)
    requires WellFormed(c) && IsRun(c, run) && i < |run|
    requires d < c.ranks && k < |c.plan| && c.plan[k].Dispatch? && IsGroup(c, g)
    requires run[i].round[d] == k ||
             (k > 0 && run[i].round[d] == k - 1 && Clean(d, k - 1, g.local * c.ranks + g.peer) in run[i].done)
    requires WordAt(run[i], d, k % 2, g.local * c.ranks + g.peer) != 0
    ensures WordAt(run[i], d, k % 2, g.local * c.ranks + g.peer) == 0 - |order| - 1
    ensures ListsTasks(c, c.batch(g.peer, k), Group(d, g.local), order)
    ensures forall row: nat :: row < |order| ==> SlotHas(run[i], d, k, g, row, c.batch(g.peer, k), order[row])
  {
    var s, me := run[i], Group(d, g.local);
    RunInv(c, run, i);
    assert Armed(s, d, k, Word(c, k, g.peer, g.local));
    Why(c, s, LandSignal(g.peer, k, me));
    SignalledOrder(c, s, g.peer, k, me);
    order := Claims(s, g.peer, k, me);
    forall row: nat | row < |order|
      ensures SlotHas(s, d, k, g, row, c.batch(g.peer, k), order[row])
    {
      SlotFilled(c, s, d, k, g, row);
    }
  }

  lemma SlotFilled(c: Config, s: State, d: nat, k: nat, g: Group, row: nat)
    requires WellFormed(c) && History(c, s) && ClaimOrder(c, s) && Received(c, s)
    requires d < c.ranks && s.round[d] <= k < |c.plan| && c.plan[k].Dispatch? && IsGroup(c, g)
    requires LandSignal(g.peer, k, Group(d, g.local)) in s.done && row < |Claims(s, g.peer, k, Group(d, g.local))|
    ensures SlotHas(s, d, k, g, row, c.batch(g.peer, k), Claims(s, g.peer, k, Group(d, g.local))[row])
  {
    var me := Group(d, g.local);
    var it := Claims(s, g.peer, k, me)[row];
    Why(c, s, LandSignal(g.peer, k, me));
    Why(c, s, Claim(g.peer, k, me, it));
    assert ItemReceived(c, s, g.peer, k, me, it);
  }

  /** A source that signalled has drawn a slot for every entry that names the expert. */
  lemma DrawnSlot(c: Config, s: State, r: nat, k: nat, g: Group, it: Item) returns (row: nat)
    requires WellFormed(c) && History(c, s) && ClaimOrder(c, s)
    requires k < |c.plan| && c.plan[k].Dispatch? && Signal(r, k, g) in s.done && Names(c, c.batch(r, k), g, it)
    ensures row < Sends(c, r, k, g) && TaskAt(s, r, k, g, row) == it
  {
    SignalledOrder(c, s, r, k, g);
    row :| row < |Claims(s, r, k, g)| && Claims(s, r, k, g)[row] == it;
  }

  /** When the signal word of an expert reads non-zero in a combine launch, it reads 1, and for every token that
      names the expert its slot already holds what the expert made of the token's row. */
  lemma CombineSignalImpliesData(c: Config, run: seq<State>, i: nat, d: nat, k: nat, g: Group, it: Item)
    requires WellFormed(c) && IsRun(c, run) && i < |run|
    requires d < c.ranks && k < |c.plan| && c.plan[k].Combine? && IsGroup(c, g)
    requires run[i].round[d] == k ||
             (k > 0 && run[i].round[d] == k - 1 && Clean(d, k - 1, g.peer * c.locals + g.local) in run[i].done)
    requires WordAt(run[i], d, k % 2, g.peer * c.locals + g.local) != 0
    ensures WordAt(run[i], d, k % 2, g.peer * c.locals + g.local) == 1
    ensures Names(c, c.batch(d, c.plan[k].of), g, it) ==>
              Read(RecvHalf(run[i], d, k % 2), OutKey(g, it.t)) ==
              RowCell(c.expert(g, c.batch(d, c.plan[k].of).x[it.t]))
  {
    var s, me, b := run[i], Group(d, g.local), c.plan[k].of;
    RunInv(c, run, i);
    assert Armed(s, d, k, Word(c, k, g.peer, g.local));
    assert LandSignal(g.peer, k, me) in s.done;
    if Names(c, c.batch(d, b), g, it) {
      Why(c, s, LandSignal(g.peer, k, me));
      PeerSignalled(c, s, g.peer, d, b, g.local);
      assert Group(g.peer, g.local) == g;
      var row := DrawnSlot(c, s, d, b, g, it);
      OutputLanded(c, s, d, k, g, row);
    }
  }

  // ---- rounds ----

  lemma NeverTwoLaunchesApart(c: Config, run: seq<State>, i: nat, p: nat, q: nat)
    requires WellFormed(c) && IsRun(c, run) && i < |run| && p < c.ranks && q < c.ranks
    ensures run[i].round[p] <= run[i].round[q] + 1
  {
    RunInv(c, run, i);
    OneLaunchApart(c, run[i], q, p);
  }

  /** A clean erases no signal: those of the previous launch were consumed, those of the next
      were not sent yet. */
  lemma CleanErasesNothing(c: Config, run: seq<State>, i: nat, r: nat, k: nat, w: nat, p: nat, g: Group)
    requires WellFormed(c) && IsRun(c, run) && i < |run| && Enabled(c, run[i], Do(Clean(r, k, w)))
    requires IsGroup(c, g)
    ensures Signal(p, k + 1, Group(r, g.local)) !in run[i].done
    ensures k > 0 ==> Poll(r, k - 1, g) in run[i].done
  {
    RunInv(c, run, i);
    CleanIsEarly(c, run[i], r, k, w, p, Group(r, g.local));
    if k > 0 {
      assert Complete(c, run[i].done, r, k - 1);
    }
  }

  /** Action a writes data or a signal of launch k into the memory of rank d. */
  ghost predicate WritesTo(c: Config, s: State, a: Action, d: nat, k: nat)
  {
    || (a.Do? && (a.ev.Send? || a.ev.Signal?) && (a.ev.r == a.ev.g.peer || c.nvlink(a.ev.r, a.ev.g.peer)) &&
        a.ev.g.peer == d && a.ev.k == k)
    || (a.Deliver? && Queue(s, a.r, a.qp) != [] && Queue(s, a.r, a.qp)[0].g.peer == d && Queue(s, a.r, a.qp)[0].k == k)
  }

  /** Whatever is written for launch k finds its receiver in launch k or the one before, and every
      earlier launch that used the same half has read all it will ever read there. */
  lemma WritesFindHalfFree(c: Config, run: seq<State>, i: nat, a: Action, d: nat, k: nat, l: nat)
    requires WellFormed(c) && IsRun(c, run) && i < |run| && Enabled(c, run[i], a) && WritesTo(c, run[i], a, d, k)
    requires l < k && l % 2 == k % 2
    ensures d < c.ranks && l < |c.plan|
    ensures run[i].round[d] <= k <= run[i].round[d] + 1
    ensures Complete(c, run[i].done, d, l)
  {
    RunInv(c, run, i);
    WriteWindow(c, run[i], a, d, k);
    HalfFree(c, run[i], d, k, l);
  }

  lemma HalfFree(c: Config, s: State, d: nat, k: nat, l: nat)
    requires WellFormed(c) && History(c, s) && d < c.ranks && k <= s.round[d] + 1 && l < k && l % 2 == k % 2
    ensures l < |c.plan| && Complete(c, s.done, d, l)
  {
    assert l < s.round[d];
  }

  lemma WriteWindow(c: Config, s: State, a: Action, d: nat, k: nat)
    requires WellFormed(c) && Inv(c, s) && Enabled(c, s, a) && WritesTo(c, s, a, d, k)
    ensures d < c.ranks && k < |c.plan| && s.round[d] <= k <= s.round[d] + 1
  {
    if a.Do? {
      DoCaused(c, s, a.ev);
      DirectWindow(c, s, a.ev);
    } else {
      QueuedWindow(c, s, a.r, a.qp);
    }
  }

  lemma DirectWindow(c: Config, s: State, ev: Event)
    requires WellFormed(c) && History(c, s) && (ev.Send? || ev.Signal?)
    requires Fits(c, ev) && ev.k == s.round[ev.r] && ev !in s.done
    ensures s.round[ev.g.peer] <= ev.k <= s.round[ev.g.peer] + 1
  {
    if ev.Send? {
      Why(c, s, Land(ev.r, ev.k, ev.g, ev.it));
      ArrivalWindow(c, s, ev.r, ev.k, ev.g, ev.it);
    } else {
      Why(c, s, LandSignal(ev.r, ev.k, ev.g));
      SignalWindow(c, s, ev.r, ev.k, ev.g);
    }
  }

  lemma QueuedWindow(c: Config, s: State, r: nat, qp: nat)
    requires WellFormed(c) && History(c, s) && Queues(c, s) && Queue(s, r, qp) != []
    ensures var q := Queue(s, r, qp)[0];
      q.k < |c.plan| && q.g.peer < c.ranks && s.round[q.g.peer] <= q.k <= s.round[q.g.peer] + 1
  {
    var q := Queue(s, r, qp)[0];
    assert RequestOk(c, s, r, qp, q);
    if q.Write? {
      Why(c, s, Send(r, q.k, q.g, q.it));
      ArrivalWindow(c, s, r, q.k, q.g, q.it);
    } else {
      Why(c, s, Signal(r, q.k, q.g));
      SignalWindow(c, s, r, q.k, q.g);
    }
  }

  // ---- workspace ----

  /** Every launch leaves every workspace word at zero, also the one both kernels use. */
  lemma WorkspaceReused(c: Config, run: seq<State>, i: nat, r: nat, w: WsWord)
    requires WellFormed(c) && IsRun(c, run) && i < |run| && r < c.ranks
    requires run[i].round[r] == |c.plan| || AllRetired(c, run[i].done, r, run[i].round[r])
    ensures Ws(run[i], r, w) == 0
  {
    RunInv(c, run, i);
    if run[i].round[r] < |c.plan| {
      WorkspaceReturns(c, run[i], r, w);
    }
  }

  /** No late add reaches a counter that was already reset. */
  lemma NoLateAdd(c: Config, run: seq<State>, i: nat, ev: Event)
    requires WellFormed(c) && IsRun(c, run) && i < |run| && Enabled(c, run[i], Do(ev))
    requires ev.Claim? || ev.Finish? || ev.Tag? || ev.Count?
    ensures Retire(ev.r, ev.k, ev.g) !in run[i].done
  {
    var s := run[i];
    RunInv(c, run, i);
    DoCaused(c, s, ev);
    if ev.Claim? {
      OpenForClaim(c, s, ev.r, ev.k, ev.g, ev.it);
    } else {
      OpenForFinish(c, s, ev);
    }
  }

  /** At the wait of an expert's warp group, the finish counter reads twice the tag exactly when the other half was
      cleaned and all sends to the expert have finished, however many they are. */
  lemma FinishWaitExact(c: Config, run: seq<State>, i: nat, r: nat, g: Group)
    requires WellFormed(c) && IsRun(c, run) && i < |run| && r < c.ranks && IsGroup(c, g)
    requires var k := run[i].round[r];
      k < |c.plan| && c.plan[k].Dispatch? && Count(r, k, g) in run[i].done && Retire(r, k, g) !in run[i].done
    ensures var k := run[i].round[r];
      Ws(run[i], r, Finished(g)) == 2 * FINISHED_SUM_TAG <==>
      Tag(r, k, g) in run[i].done && AllFinished(c, run[i].done, r, k, g)
  {
    RunInv(c, run, i);
    FinishCounterExact(c, run[i], r, g);
  }

  /** From its raise until the last group has gone, the clean flag of a combine launch is positive. */
  lemma CleanWaitExact(c: Config, run: seq<State>, i: nat, r: nat, g: Group)
    requires WellFormed(c) && IsRun(c, run) && i < |run| && r < c.ranks && IsGroup(c, g)
    requires var k := run[i].round[r]; k < |c.plan| && c.plan[k].Combine? && Retire(r, k, g) !in run[i].done
    ensures Ws(run[i], r, FLAG) > 0 <==> Raise(r, run[i].round[r]) in run[i].done
    ensures Ws(run[i], r, FLAG) >= 0
  {
    RunInv(c, run, i);
    CleanFlagExact(c, run[i], r, g);
  }

  // ---- packing ----

  /** Once all sources are packed, each position below the packed count lies in the range of
      exactly one source, and the buffer never overflows. */
  lemma RangesTile(c: Config, run: seq<State>, i: nat, r: nat, local: nat, pos: int)
    requires WellFormed(c) && IsRun(c, run) && i < |run| && r < c.ranks && local < c.locals
    requires var k := run[i].round[r]; k < |c.plan| && c.plan[k].Dispatch? && AllPolled(c, run[i].done, r, k)
    requires 0 <= pos < PackedCount(run[i], r, local)
    ensures pos < c.ranks * c.maxTokens
    ensures exists p: nat :: Owns(c, run[i], r, run[i].round[r], local, pos, p)
    ensures OwnedOnce(c, run[i], r, run[i].round[r], local, pos)
  {
    RunInv(c, run, i);
    Why(c, run[i], Poll(r, run[i].round[r], Group(0, local)));
    TileAt(c, run[i], r, local, pos);
  }

  /** Source p's range contains the position. */
  ghost predicate Owns(c: Config, s: State, r: nat, k: nat, local: nat, pos: int, p: nat)
  {
    p < c.ranks && InRange(Layout(s, r, k, Group(p, local)), pos)
  }

  ghost predicate OwnedOnce(c: Config, s: State, r: nat, k: nat, local: nat, pos: int)
  {
    forall p: nat, q: nat :: Owns(c, s, r, k, local, pos, p) && Owns(c, s, r, k, local, pos, q) ==> p == q
  }

  lemma TileAt(c: Config, s: State, r: nat, local: nat, pos: int)
    requires WellFormed(c) && |s.round| == c.ranks && Ranges(c, s) && Packing(c, s)
    requires r < c.ranks && local < c.locals
    requires s.round[r] < |c.plan| && c.plan[s.round[r]].Dispatch?
    requires AllPolled(c, s.done, r, s.round[r]) && AllRetired(c, s.done, r, s.round[r])
    requires 0 <= pos < PackedCount(s, r, local)
    ensures pos < c.ranks * c.maxTokens
    ensures exists p: nat :: Owns(c, s, r, s.round[r], local, pos, p)
    ensures OwnedOnce(c, s, r, s.round[r], local, pos)
  {
    var k := s.round[r];
    var p := FindOwner(c, s, r, local, pos);
    OwnedInRange(c, s, r, k, local, pos, p);
    forall p: nat, q: nat | Owns(c, s, r, k, local, pos, p) && Owns(c, s, r, k, local, pos, q)
      ensures p == q
    {
      OneOwner(c, s, r, k, local, pos, p, q);
    }
  }

  lemma FindOwner(c: Config, s: State, r: nat, local: nat, pos: int) returns (p: nat)
    requires WellFormed(c) && |s.round| == c.ranks && r < c.ranks && local < c.locals && PackedExpert(c, s, r, local)
    requires var k := s.round[r]; k < |c.plan| && c.plan[k].Dispatch? && AllRetired(c, s.done, r, k)
    requires 0 <= pos < PackedCount(s, r, local)
    ensures Owns(c, s, r, s.round[r], local, pos, p)
  {
    assert Covered(c, s, r, s.round[r], local, pos);
    p :| p < c.ranks && Poll(r, s.round[r], Group(p, local)) in s.done &&
      var range := Layout(s, r, s.round[r], Group(p, local));
      range.begin <= pos < range.begin + range.count;
  }

  lemma OwnedInRange(c: Config, s: State, r: nat, k: nat, local: nat, pos: int, p: nat)
    requires WellFormed(c) && |s.round| == c.ranks && Ranges(c, s) && r < c.ranks
    requires k < |c.plan| && c.plan[k].Dispatch? && local < c.locals && AllPolled(c, s.done, r, k)
    requires Owns(c, s, r, k, local, pos, p)
    ensures pos < c.ranks * c.maxTokens
  {
    assert Poll(r, k, Group(p, local)) in s.done;
  }

  lemma OneOwner(c: Config, s: State, r: nat, k: nat, local: nat, pos: int, p: nat, q: nat)
    requires WellFormed(c) && |s.round| == c.ranks && Ranges(c, s)
    requires k < |c.plan| && c.plan[k].Dispatch? && local < c.locals && AllPolled(c, s.done, r, k)
    requires Owns(c, s, r, k, local, pos, p) && Owns(c, s, r, k, local, pos, q)
    ensures p == q
  {
    var g, h := Group(p, local), Group(q, local);
    assert Poll(r, k, g) in s.done && Poll(r, k, h) in s.done;
  }

  ghost predicate InRange(a: Range, pos: int)
  {
    a.begin <= pos < a.begin + a.count
  }

  /** The (count, begin) pair a combine launch reads is the one its dispatch launch packed. */
  lemma CombineReadsPacked(c: Config, run: seq<State>, i: nat, r: nat, k: nat, g: Group, it: Item)
    requires WellFormed(c) && IsRun(c, run) && i < |run| && r < c.ranks && IsGroup(c, g)
    requires k < |c.plan| && c.plan[k].Combine? && k <= run[i].round[r]
    requires it.Out? && it.row < Layout(run[i], r, c.plan[k].of, g).count
    ensures var s, d, me := run[i], c.plan[k].of, Group(r, g.local);
      var order, range := Claims(s, g.peer, d, me), Layout(s, r, d, g);
      && range.count == |order| && ListsTasks(c, c.batch(g.peer, d), me, order)
      && RowHas(s, r, d, g.local, range.begin + it.row, c.batch(g.peer, d), order[it.row])
  {
    var s, d, me := run[i], c.plan[k].of, Group(r, g.local);
    RunInv(c, run, i);
    PolledRange(c, s, r, k, g);
    CombineItem(c, s, r, k, g, it);
    PeerSignalled(c, s, r, g.peer, d, g.local);
    SignalledOrder(c, s, g.peer, d, me);
  }

  /** The packed row holds token index and row of the task. */
  ghost predicate RowHas(s: State, r: nat, d: nat, local: nat, pos: int, b: Batch, it: Item)
  {
    && it.Tok? && it.t < |b.x|
    && Packed(s, r, d, local, pos) == TokenCell(it.t, b.x[it.t])
  }

  // ---- addresses ----

  /** The slot lies within the bounds its buffer was sized for. */
  predicate KeyInRange(c: Config, key: Key)
  {
    if key.TokenKey? then key.t < c.maxTokens
    else if key.RowKey? then key.local < c.locals && 0 <= key.pos < c.ranks * c.maxTokens
    else if key.SlotKey? then key.local < c.locals && key.src < c.ranks && 0 <= key.slot < c.maxTokens
    else IsGroup(c, key.expert) && key.token < c.maxTokens
  }

  /** Every slot any item is sent from or to is in range. */
  lemma AddressesInRange(c: Config, run: seq<State>, i: nat, r: nat, k: nat, g: Group, it: Item)
    requires WellFormed(c) && IsRun(c, run) && i < |run| && Send(r, k, g, it) in run[i].done
    ensures k < |c.plan| && (it.Tok? <==> c.plan[k].Dispatch?)
    ensures KeyInRange(c, SourceKey(c, run[i], r, k, g, it))
    ensures KeyInRange(c, DestKey(c, run[i], r, k, g, it))
  {
    var s := run[i];
    RunInv(c, run, i);
    Why(c, s, Send(r, k, g, it));
    if c.plan[k].Dispatch? {
      assert WellFormedBatch(c, c.batch(r, k));
      ClaimsBounded(c, s, r, k, g);
      SendsBounded(c, r, k, g);
    } else {
      assert WellFormedBatch(c, c.batch(g.peer, c.plan[k].of));
      PolledRange(c, s, r, k, g);
      CombineItem(c, s, r, k, g, it);
    }
  }

  /** No two items of a launch are sent to the same slot of the same rank: slots are drawn once, and a token
      names an expert at most once. */
  lemma DistinctSlots(c: Config, s: State, r: nat, k: nat, g: Group, it: Item, p: nat, h: Group, jt: Item)
    requires WellFormed(c) && History(c, s) && ClaimOrder(c, s) && PackedRows(c, s)
    requires Send(r, k, g, it) in s.done && Send(p, k, h, jt) in s.done && g.peer == h.peer
    requires r != p || g != h || it != jt
    ensures k < |c.plan| && DestKey(c, s, r, k, g, it) != DestKey(c, s, p, k, h, jt)
  {
    Why(c, s, Send(r, k, g, it));
    Why(c, s, Send(p, k, h, jt));
    if c.plan[k].Combine? {
      CombineItem(c, s, r, k, g, it);
      CombineItem(c, s, p, k, h, jt);
      if r == p && g == h {
        DistinctTokens(c, s, r, k, g, it, jt);
      }
    }
  }

  /** Two rows that one source sent to one expert came from different tokens. */
  lemma DistinctTokens(c: Config, s: State, r: nat, k: nat, g: Group, it: Item, jt: Item)
    requires WellFormed(c) && History(c, s) && ClaimOrder(c, s) && PackedRows(c, s)
    requires r < c.ranks && k <= s.round[r] && k < |c.plan| && c.plan[k].Combine? && IsGroup(c, g)
    requires IsItem(c, r, k, g, it) && IsItem(c, r, k, g, jt) && it != jt
    ensures DestKey(c, s, r, k, g, it) != DestKey(c, s, r, k, g, jt)
  {
    var d, me := c.plan[k].of, Group(r, g.local);
    CombineItem(c, s, r, k, g, it);
    CombineItem(c, s, r, k, g, jt);
    CombineReads(c, s, r, k, g);
    var x, y := TaskAt(s, g.peer, d, me, it.row), TaskAt(s, g.peer, d, me, jt.row);
    assert SlotReg(s, g.peer, d, x) == it.row && SlotReg(s, g.peer, d, y) == jt.row;
    if x.t == y.t {
      TaskOfToken(c, g.peer, d, me, x, y);
    }
  }
}
