/** How data and signals leave a rank, said on the NVLink topology and the queue pairs: straight into the peer's
    memory for the rank itself and for peers that NVLink reaches, through one posted request for the others. */
module Transport {
  import opened Config
  import opened Protocol
  import opened Invariant
  import opened KeepHistory
  import opened KeepData
  import opened KeepFlight
  import opened KeepInv
  import opened Theorems

  /** The peer can only be reached through the fabric. */
  predicate Remote(c: Config, r: nat, peer: nat)
  {
    r != peer && !c.nvlink(r, peer)
  }

  /** One request was appended to one queue pair of rank r, and nothing else was queued. */
  ghost predicate Posted(s: State, s': State, r: nat, qp: nat, q: Request)
  {
    && Queue(s', r, qp) == Queue(s, r, qp) + [q]
    && (forall p: nat, x: nat :: p != r || x != qp ==> Queue(s', p, x) == Queue(s, p, x))
  }

  /** The slot at the peer that an item of rank r is meant for, and what it has to hold there: in dispatch the slot
      drawn for the token's task, with index and row of the token; in combine the slot of this expert and a token of
      the peer that names it, with what the expert made of the token's row. */
  ghost predicate Bound(c: Config, s: State, r: nat, k: nat, g: Group, it: Item, key: Key, v: Cell)
    requires c.locals > 0 && k < |c.plan|
  {
    if c.plan[k].Dispatch? then
      && Names(c, c.batch(r, k), g, it)
      && key == SlotKey(g.local, r, SlotReg(s, r, k, it)) && v == TokenCell(it.t, c.batch(r, k).x[it.t])
    else
      var b, me := c.batch(g.peer, c.plan[k].of), Group(r, g.local);
      exists task :: Names(c, b, me, task) && key == OutKey(me, task.t) && v == RowCell(c.expert(me, b.x[task.t]))
  }

  lemma ItemBound(c: Config, s: State, r: nat, k: nat, g: Group, it: Item)
    requires WellFormed(c) && History(c, s) && ClaimOrder(c, s) && PackedRows(c, s)
    requires Fits(c, Send(r, k, g, it)) && k <= s.round[r]
    ensures Bound(c, s, r, k, g, it, DestKey(c, s, r, k, g, it), Content(c, s, r, k, g, it))
  {
    if c.plan[k].Dispatch? {
      TaskNames(c, r, k, g, it);
    } else {
      CombineItem(c, s, r, k, g, it);
      var d, me := c.plan[k].of, Group(r, g.local);
      TaskNames(c, g.peer, d, me, TaskAt(s, g.peer, d, me, it.row));
    }
  }

  /** What a send step does, on the memories alone. */
  lemma SendEffect(c: Config, s: State, s': State, ev: Event)
    requires WellFormed(c) && ev.Send? && ev.k < |c.plan|
    requires s'.done == s.done + Recorded(c, ev) && s'.mem == Effect(c, s, ev)
    ensures var r, k, g, it := ev.r, ev.k, ev.g, ev.it;
      && s'.mem.words == s.mem.words && s'.mem.send == s.mem.send
      && if Remote(c, r, g.peer) then
           && s'.mem.recv == s.mem.recv && s'.done == s.done + {ev}
           && Posted(s, s', r, QpOf(c, g), WriteRequest(c, s, r, k, g, it))
         else
           && s'.mem.queue == s.mem.queue && s'.done == s.done + {ev, Land(r, k, g, it)}
           && s'.mem.recv == PutRecv(s, g.peer, k, DestKey(c, s, r, k, g, it), Payload(c, s, r, k, g, it))
  {
  }

  /** Item `it` went from s to s' with content v, to slot `key`: through the fabric exactly when rank r is not the peer
      and NVLink does not reach it. */
  ghost predicate Moved(c: Config, s: State, s': State, r: nat, k: nat, g: Group, it: Item, key: Key, v: Cell)
    requires 0 < c.ranks <= 256
  {
    && s'.mem.words == s.mem.words
    && if r != g.peer && !c.nvlink(r, g.peer) then
         && s'.mem.recv == s.mem.recv && s'.done == s.done + {Send(r, k, g, it)}
         && exists q: Request :: q.Write? && q.dst == key && Read(SendHalf(s, r, k % 2), q.src) == v
              && Posted(s, s', r, g.peer * (256 / c.ranks) + g.local % (256 / c.ranks), q)
       else
         && s'.mem.queue == s.mem.queue && s'.done == s.done + {Send(r, k, g, it), Land(r, k, g, it)}
         && Read(RecvHalf(s', g.peer, k % 2), key) == v
  }

  lemma SendMoves(c: Config, s: State, s': State, r: nat, k: nat, g: Group, it: Item, key: Key, v: Cell)
    requires WellFormed(c) && k < |c.plan|
    requires s'.done == s.done + Recorded(c, Send(r, k, g, it)) && s'.mem == Effect(c, s, Send(r, k, g, it))
    requires key == DestKey(c, s, r, k, g, it) && v == Payload(c, s, r, k, g, it)
    requires Remote(c, r, g.peer) ==> Read(SendHalf(s, r, k % 2), SourceKey(c, s, r, k, g, it)) == v
    ensures Moved(c, s, s', r, k, g, it, key, v)
  {
    SendEffect(c, s, s', Send(r, k, g, it));
    if Remote(c, r, g.peer) {
      var q := WriteRequest(c, s, r, k, g, it);
      assert q.Write? && q.dst == key && Read(SendHalf(s, r, k % 2), q.src) == v;
    }
  }

  /** A send to a peer that only the fabric reaches changes no receive memory and no word, and posts exactly one
      request, on the queue pair of the peer and the local expert; its source slot holds the content already. Any
      other send queues nothing and puts the content into the peer's slot. */
  lemma SendTransport(c: Config, run: seq<State>, i: nat, r: nat, k: nat, g: Group, it: Item)
    returns (key: Key, v: Cell)
    requires WellFormed(c) && IsRun(c, run) && i < |run| && Enabled(c, run[i], Do(Send(r, k, g, it)))
    ensures Bound(c, run[i], r, k, g, it, key, v)
    ensures Moved(c, run[i], Apply(c, run[i], Do(Send(r, k, g, it))), r, k, g, it, key, v)
  {
    SendIsReady(c, run, i, r, k, g, it);
    key, v := DestKey(c, run[i], r, k, g, it), Content(c, run[i], r, k, g, it);
    SendMoves(c, run[i], Apply(c, run[i], Do(Send(r, k, g, it))), r, k, g, it, key, v);
  }

  /** Before a send its item knows where it goes, and its content is where it will be read. */
  lemma SendIsReady(c: Config, run: seq<State>, i: nat, r: nat, k: nat, g: Group, it: Item)
    requires WellFormed(c) && IsRun(c, run) && i < |run| && Enabled(c, run[i], Do(Send(r, k, g, it)))
    ensures Bound(c, run[i], r, k, g, it, DestKey(c, run[i], r, k, g, it), Content(c, run[i], r, k, g, it))
    ensures Payload(c, run[i], r, k, g, it) == Content(c, run[i], r, k, g, it)
    ensures Remote(c, r, g.peer) ==>
              Read(SendHalf(run[i], r, k % 2), SourceKey(c, run[i], r, k, g, it)) == Content(c, run[i], r, k, g, it)
  {
    var s := run[i];
    RunInv(c, run, i);
    DoCaused(c, s, Send(r, k, g, it));
    ItemBound(c, s, r, k, g, it);
    PayloadIsContent(c, s, r, k, g, it);
    if Remote(c, r, g.peer) {
      StagedSource(c, s, r, k, g, it);
    }
  }

  /** The source slot of an item that goes through the fabric is filled before the request is posted. */
  lemma StagedSource(c: Config, s: State, r: nat, k: nat, g: Group, it: Item)
    requires WellFormed(c) && History(c, s) && Staged(c, s)
    requires Fits(c, Send(r, k, g, it)) && k == s.round[r] && Caused(c, s.done, Send(r, k, g, it))
    requires Remote(c, r, g.peer)
    ensures Read(SendHalf(s, r, k % 2), SourceKey(c, s, r, k, g, it)) == Content(c, s, r, k, g, it)
  {
    if c.plan[k].Dispatch? {
      Why(c, s, Claim(r, k, g, it));
      assert StagedToken(c, s, r, k, it.t);
    } else {
      assert StagedRow(c, s, r, k, g, it);
    }
  }

  /** The signal went from s to s' as `value`, into word w of the peer: through the fabric exactly when rank r is not
      the peer and NVLink does not reach it. */
  ghost predicate Signalled(c: Config, s: State, s': State, r: nat, k: nat, g: Group, w: nat, value: int)
    requires 0 < c.ranks <= 256
  {
    && s'.mem.recv == s.mem.recv
    && if r != g.peer && !c.nvlink(r, g.peer) then
         && s'.mem.words == s.mem.words && s'.done == s.done + {Signal(r, k, g)}
         && Posted(s, s', r, g.peer * (256 / c.ranks) + g.local % (256 / c.ranks), AtomicAdd(k, g, w, value))
       else
         && s'.mem.queue == s.mem.queue && s'.done == s.done + {Signal(r, k, g), LandSignal(r, k, g)}
         && WordAt(s', g.peer, k % 2, w) == value
  }

  /** A signal to a peer that only the fabric reaches posts exactly one atomic add, on the queue pair that carries
      the data of the same group; any other signal is stored in the peer's word. In dispatch the value is -n-1 for
      the number n of entries that name the expert, in combine it is 1. */
  lemma SignalTransport(c: Config, run: seq<State>, i: nat, r: nat, k: nat, g: Group)
    returns (order: seq<Item>, value: int)
    requires WellFormed(c) && IsRun(c, run) && i < |run| && Enabled(c, run[i], Do(Signal(r, k, g)))
    ensures c.plan[k].Dispatch? ==> ListsTasks(c, c.batch(r, k), g, order) && value == 0 - |order| - 1
    ensures c.plan[k].Combine? ==> value == 1
    ensures Signalled(c, run[i], Apply(c, run[i], Do(Signal(r, k, g))), r, k, g,
                      if c.plan[k].Dispatch? then g.local * c.ranks + r else r * c.locals + g.local, value)
  {
    SignalIsReady(c, run, i, r, k, g);
    order, value := Claims(run[i], r, k, g), SignalValue(c, r, k, g);
    SignalEffect(c, run[i], Apply(c, run[i], Do(Signal(r, k, g))), r, k, g);
  }

  lemma SignalIsReady(c: Config, run: seq<State>, i: nat, r: nat, k: nat, g: Group)
    requires WellFormed(c) && IsRun(c, run) && i < |run| && Enabled(c, run[i], Do(Signal(r, k, g)))
    ensures c.plan[k].Dispatch? ==>
              |Claims(run[i], r, k, g)| == Sends(c, r, k, g) &&
              ListsTasks(c, c.batch(r, k), g, Claims(run[i], r, k, g))
  {
    RunInv(c, run, i);
    DoCaused(c, run[i], Signal(r, k, g));
    if c.plan[k].Dispatch? {
      AllDrawn(c, run[i], r, k, g);
    }
  }

  lemma SignalEffect(c: Config, s: State, s': State, r: nat, k: nat, g: Group)
    requires WellFormed(c) && k < |c.plan|
    requires s'.done == s.done + Recorded(c, Signal(r, k, g)) && s'.mem == Effect(c, s, Signal(r, k, g))
    ensures Signalled(c, s, s', r, k, g,
                      if c.plan[k].Dispatch? then g.local * c.ranks + r else r * c.locals + g.local,
                      SignalValue(c, r, k, g))
  {
  }
}
