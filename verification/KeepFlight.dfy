/** Every step keeps the queue pairs ordered and what has landed in place. */
module KeepFlight {
  import opened Config
  import opened Protocol
  import opened Invariant
  import opened KeepHistory
  import opened KeepCounters
  import opened Stable
  import opened Lockstep
  import opened KeepData

  // ---- queue pairs ----

  lemma RequestStays(c: Config, s: State, s': State, r: nat, qp: nat, q: Request)
    requires WellFormed(c) && History(c, s) && ClaimOrder(c, s) && Grows(s, s')
    requires RequestOk(c, s, r, qp, q) && s.done <= s'.done && Arrival(r, q) !in s'.done
    ensures RequestOk(c, s', r, qp, q)
  {
    if q.Write? {
      ItemStays(c, s, s', r, q.k, q.g, q.it);
    }
  }

  lemma QueuesFrame(c: Config, s: State, s': State)
    requires WellFormed(c) && History(c, s) && ClaimOrder(c, s) && Queues(c, s) && Grows(s, s')
    requires s'.mem.queue == s.mem.queue && s.done <= s'.done
    requires forall r: nat, qp: nat, i :: 0 <= i < |Queue(s, r, qp)| ==> Arrival(r, Queue(s, r, qp)[i]) !in s'.done
    ensures Queues(c, s')
  {
    assert forall r, qp :: Queue(s', r, qp) == Queue(s, r, qp);
    forall r: nat, qp: nat, i | 0 <= i < |Queue(s', r, qp)|
      ensures RequestOk(c, s', r, qp, Queue(s', r, qp)[i])
    {
      RequestStays(c, s, s', r, qp, Queue(s, r, qp)[i]);
    }
  }

  /** A new request may join the queue of its group. */
  ghost predicate MayPost(c: Config, s: State, s': State, r: nat, q: Request)
    requires WellFormed(c)
  {
    && RequestOk(c, s', r, QpOf(c, q.g), q)
    && q !in Queue(s, r, QpOf(c, q.g))
    && (q.Write? ==> Signal(r, q.k, q.g) !in s.done)
  }

  lemma QueuesPost(c: Config, s: State, s': State, r: nat, q: Request, ev: Event)
    requires WellFormed(c) && History(c, s) && ClaimOrder(c, s) && Queues(c, s) && Grows(s, s')
    requires MayPost(c, s, s', r, q) && s'.mem.queue == Post(s, r, QpOf(c, q.g), q)
    requires s'.done == s.done + {ev} && !ev.Land? && !ev.LandSignal?
    ensures Queues(c, s')
  {
    var mine := QpOf(c, q.g);
    assert Queue(s', r, mine) == Queue(s, r, mine) + [q];
    assert forall p: nat, x: nat :: (p, x) != (r, mine) ==> Queue(s', p, x) == Queue(s, p, x);
    forall p: nat, x: nat, i | 0 <= i < |Queue(s', p, x)|
      ensures RequestOk(c, s', p, x, Queue(s', p, x)[i])
    {
      if i < |Queue(s, p, x)| {
        RequestStays(c, s, s', p, x, Queue(s, p, x)[i]);
      }
    }
    forall p: nat, x: nat, i, j | 0 <= i < j < |Queue(s', p, x)|
      ensures InOrder(Queue(s', p, x)[i], Queue(s', p, x)[j])
    {
      if j < |Queue(s, p, x)| {
        assert InOrder(Queue(s, p, x)[i], Queue(s, p, x)[j]);
      } else {
        assert RequestOk(c, s, p, x, Queue(s, p, x)[i]);
      }
    }
  }

  lemma QueuesSend(c: Config, s: State, s': State, r: nat, k: nat, g: Group, it: Item)
    requires WellFormed(c) && History(c, s) && ClaimOrder(c, s) && Queues(c, s) && Grows(s, s')
    requires Fits(c, Send(r, k, g, it)) && Send(r, k, g, it) !in s.done && !Direct(c, r, g.peer)
    requires SameItem(c, s, s', r, k, g, it)
    requires s'.done == s.done + {Send(r, k, g, it)}
    requires s'.mem.queue == Post(s, r, QpOf(c, g), WriteRequest(c, s, r, k, g, it))
    ensures Queues(c, s')
  {
    var q := WriteRequest(c, s, r, k, g, it);
    Why(c, s, Land(r, k, g, it));
    Why(c, s, Signal(r, k, g));
    assert forall i :: 0 <= i < |Queue(s, r, QpOf(c, g))| ==>
        RequestOk(c, s, r, QpOf(c, g), Queue(s, r, QpOf(c, g))[i]);
    QueuesPost(c, s, s', r, q, Send(r, k, g, it));
  }

  lemma QueuesSignal(c: Config, s: State, s': State, r: nat, k: nat, g: Group)
    requires WellFormed(c) && History(c, s) && ClaimOrder(c, s) && Queues(c, s) && Grows(s, s')
    requires Fits(c, Signal(r, k, g)) && Signal(r, k, g) !in s.done && !Direct(c, r, g.peer)
    requires s'.done == s.done + {Signal(r, k, g)}
    requires s'.mem.queue == Post(s, r, QpOf(c, g), SignalRequest(c, r, k, g))
    ensures Queues(c, s')
  {
    Why(c, s, LandSignal(r, k, g));
    assert forall i :: 0 <= i < |Queue(s, r, QpOf(c, g))| ==>
        RequestOk(c, s, r, QpOf(c, g), Queue(s, r, QpOf(c, g))[i]);
    QueuesPost(c, s, s', r, SignalRequest(c, r, k, g), Signal(r, k, g));
  }

  lemma QueuesDeliver(c: Config, s: State, s': State, r: nat, qp: nat)
    requires WellFormed(c) && History(c, s) && ClaimOrder(c, s) && Queues(c, s) && Grows(s, s')
    requires Queue(s, r, qp) != []
    requires s'.mem.queue == s.mem.queue[(r, qp) := Queue(s, r, qp)[1..]]
    requires s'.done == s.done + {Arrival(r, Queue(s, r, qp)[0])}
    ensures Queues(c, s')
  {
    var head := Queue(s, r, qp)[0];
    assert RequestOk(c, s, r, qp, head);
    assert Queue(s', r, qp) == Queue(s, r, qp)[1..];
    assert forall p: nat, x: nat :: (p, x) != (r, qp) ==> Queue(s', p, x) == Queue(s, p, x);
    forall p: nat, x: nat, i | 0 <= i < |Queue(s', p, x)|
      ensures RequestOk(c, s', p, x, Queue(s', p, x)[i])
    {
      var n := if (p, x) == (r, qp) then i + 1 else i;
      var q := Queue(s, p, x)[n];
      assert Queue(s', p, x)[i] == q;
      assert RequestOk(c, s, p, x, q);
      assert (p, x) == (r, qp) ==> InOrder(head, Queue(s, r, qp)[n]);
      RequestStays(c, s, s', p, x, q);
    }
    forall p: nat, x: nat, i, j | 0 <= i < j < |Queue(s', p, x)|
      ensures InOrder(Queue(s', p, x)[i], Queue(s', p, x)[j])
    {
      var n := if (p, x) == (r, qp) then 1 else 0;
      assert InOrder(Queue(s, p, x)[i + n], Queue(s, p, x)[j + n]);
    }
  }

  // ---- in flight ----

  ghost predicate ItemInFlight(c: Config, s: State, r: nat, k: nat, g: Group, it: Item)
    requires WellFormed(c) && k < |c.plan|
  {
    Land(r, k, g, it) in s.done || WriteRequest(c, s, r, k, g, it) in Queue(s, r, QpOf(c, g))
  }

  ghost predicate SignalInFlight(c: Config, s: State, r: nat, k: nat, g: Group)
    requires WellFormed(c) && k < |c.plan|
  {
    LandSignal(r, k, g) in s.done || SignalRequest(c, r, k, g) in Queue(s, r, QpOf(c, g))
  }

  /** A step that records `ev` and takes nothing out of the queues. */
  lemma InFlightGrows(c: Config, s: State, s': State, ev: Event)
    requires WellFormed(c) && History(c, s) && ClaimOrder(c, s) && InFlight(c, s) && Grows(s, s')
    requires s'.done == s.done + Recorded(c, ev)
    requires forall r: nat, qp: nat, q :: q in Queue(s, r, qp) ==> q in Queue(s', r, qp)
    requires ev.Send? ==> Fits(c, ev) && ItemInFlight(c, s', ev.r, ev.k, ev.g, ev.it)
    requires ev.Signal? ==> Fits(c, ev) && SignalInFlight(c, s', ev.r, ev.k, ev.g)
    ensures InFlight(c, s')
  {
    forall r: nat, k: nat, g, it | Send(r, k, g, it) in s'.done && k < |c.plan|
      ensures ItemInFlight(c, s', r, k, g, it)
    {
      if Send(r, k, g, it) != ev {
        ItemStays(c, s, s', r, k, g, it);
      }
    }
    forall r: nat, k: nat, g | Signal(r, k, g) in s'.done && k < |c.plan|
      ensures SignalInFlight(c, s', r, k, g)
    {
    }
  }

  lemma InFlightDeliver(c: Config, s: State, s': State, r: nat, qp: nat)
    requires WellFormed(c) && History(c, s) && ClaimOrder(c, s) && InFlight(c, s) && Grows(s, s')
    requires Queue(s, r, qp) != []
    requires s'.mem.queue == s.mem.queue[(r, qp) := Queue(s, r, qp)[1..]]
    requires s'.done == s.done + {Arrival(r, Queue(s, r, qp)[0])}
    ensures InFlight(c, s')
  {
    forall p: nat, x: nat, q | q in Queue(s, p, x)
      ensures q in Queue(s', p, x) || ((p, x) == (r, qp) && q == Queue(s, r, qp)[0])
    {
      if (p, x) == (r, qp) {
        assert Queue(s', r, qp) == Queue(s, r, qp)[1..];
        assert Queue(s, r, qp) == [Queue(s, r, qp)[0]] + Queue(s, r, qp)[1..];
      } else {
        assert Queue(s', p, x) == Queue(s, p, x);
      }
    }
    forall p: nat, k: nat, g, it | Send(p, k, g, it) in s'.done && k < |c.plan|
      ensures ItemInFlight(c, s', p, k, g, it)
    {
      ItemStays(c, s, s', p, k, g, it);
    }
    forall p: nat, k: nat, g | Signal(p, k, g) in s'.done && k < |c.plan|
      ensures SignalInFlight(c, s', p, k, g)
    {
    }
  }

  // ---- receive buffers ----

  ghost predicate ItemReceived(c: Config, s: State, r: nat, k: nat, g: Group, it: Item)
    requires k < |c.plan|
  {
    Holds(RecvHalf(s, g.peer, k % 2), k, DestKey(c, s, r, k, g, it), Content(c, s, r, k, g, it))
  }

  lemma ReceivedFrame(c: Config, s: State, s': State)
    requires WellFormed(c) && History(c, s) && ClaimOrder(c, s) && Received(c, s) && Grows(s, s')
    requires s'.mem.recv == s.mem.recv && |s'.round| == c.ranks && s.done <= s'.done
    requires forall r :: 0 <= r < c.ranks ==> s.round[r] <= s'.round[r]
    requires forall ev :: ev in s'.done && ev !in s.done ==> !ev.Land?
    ensures Received(c, s')
  {
    assert forall r, h :: RecvHalf(s', r, h) == RecvHalf(s, r, h);
    forall r: nat, k: nat, g, it | Land(r, k, g, it) in s'.done && g.peer < c.ranks && k < |c.plan| &&
        s'.round[g.peer] <= k
      ensures ItemReceived(c, s', r, k, g, it)
    {
      assert ItemReceived(c, s, r, k, g, it);
      Why(c, s, Land(r, k, g, it));
      ItemStays(c, s, s', r, k, g, it);
    }
  }

  /** Two messages for the same slot of the same receiver carry the same thing. */
  lemma SameSlotSameContent(c: Config, s: State, r: nat, k: nat, g: Group, it: Item, p: nat, h: Group, i: Item)
    requires WellFormed(c) && History(c, s) && ClaimOrder(c, s) && PackedRows(c, s)
    requires Fits(c, Send(r, k, g, it)) && k <= s.round[r] && Caused(c, s.done, Send(r, k, g, it))
    requires Fits(c, Send(p, k, h, i)) && k <= s.round[p] && Caused(c, s.done, Send(p, k, h, i)) && g.peer == h.peer
    ensures DestKey(c, s, r, k, g, it) == DestKey(c, s, p, k, h, i) ==>
              Content(c, s, r, k, g, it) == Content(c, s, p, k, h, i)
  {
    if c.plan[k].Combine? {
      CombineItem(c, s, r, k, g, it);
      CombineItem(c, s, p, k, h, i);
    }
  }

  /** The half a message lands in holds nothing of another launch that is still needed. */
  lemma LandedLaunch(c: Config, s: State, d: nat, k: nat, ev: Event)
    requires WellFormed(c) && History(c, s) && d < c.ranks
    requires s.round[d] <= k <= s.round[d] + 1
    requires ev.Land? && ev in s.done && ev.g.peer == d && s.round[d] <= ev.k && ev.k % 2 == k % 2
    ensures ev.k == k
  {
    Why(c, s, ev);
    OneLaunchApart(c, s, d, ev.r);
  }

  lemma ReceivedLand(c: Config, s: State, s': State, r: nat, k: nat, g: Group, it: Item)
    requires WellFormed(c) && History(c, s) && ClaimOrder(c, s) && PackedRows(c, s) && Received(c, s) && Grows(s, s')
    requires Fits(c, Send(r, k, g, it)) && k <= s.round[r] && Caused(c, s.done, Send(r, k, g, it))
    requires Land(r, k, g, it) !in s.done && SameItem(c, s, s', r, k, g, it)
    requires s'.round == s.round && s.done <= s'.done
    requires forall ev :: ev in s'.done && ev !in s.done && ev.Land? ==> ev == Land(r, k, g, it)
    requires s'.mem.recv == PutRecv(s, g.peer, k, DestKey(c, s, r, k, g, it), Content(c, s, r, k, g, it))
    ensures Received(c, s')
  {
    ArrivalWindow(c, s, r, k, g, it);
    forall p: nat, l: nat, h, i | Land(p, l, h, i) in s'.done && h.peer < c.ranks && l < |c.plan| &&
        s.round[h.peer] <= l
      ensures ItemReceived(c, s', p, l, h, i)
    {
      if Land(p, l, h, i) != Land(r, k, g, it) {
        LandedStays(c, s, s', r, k, g, it, p, l, h, i);
      }
    }
  }

  lemma LandedWasSent(c: Config, s: State, p: nat, l: nat, h: Group, i: Item)
    requires WellFormed(c) && History(c, s) && Land(p, l, h, i) in s.done
    ensures Send(p, l, h, i) in s.done
    ensures Fits(c, Send(p, l, h, i)) && l <= s.round[p] && Caused(c, s.done, Send(p, l, h, i))
  {
    Why(c, s, Land(p, l, h, i));
    Why(c, s, Send(p, l, h, i));
  }

  lemma LandedStays(c: Config, s: State, s': State, r: nat, k: nat, g: Group, it: Item,
                    p: nat, l: nat, h: Group, i: Item)
    requires WellFormed(c) && History(c, s) && ClaimOrder(c, s) && PackedRows(c, s) && Received(c, s) && Grows(s, s')
    requires Fits(c, Send(r, k, g, it)) && k <= s.round[r] && Caused(c, s.done, Send(r, k, g, it))
    requires s.round[g.peer] <= k <= s.round[g.peer] + 1
    requires s'.mem.recv == PutRecv(s, g.peer, k, DestKey(c, s, r, k, g, it), Content(c, s, r, k, g, it))
    requires Land(p, l, h, i) in s.done && h.peer < c.ranks && l < |c.plan| && s.round[h.peer] <= l
    ensures ItemReceived(c, s', p, l, h, i)
  {
    assert ItemReceived(c, s, p, l, h, i);
    LandedWasSent(c, s, p, l, h, i);
    ItemStays(c, s, s', p, l, h, i);
    if h.peer == g.peer && l % 2 == k % 2 {
      LandedLaunch(c, s, g.peer, k, Land(p, l, h, i));
      SameSlotSameContent(c, s, r, k, g, it, p, h, i);
    }
    PutRecvHolds(s, s', g.peer, k, DestKey(c, s, r, k, g, it), Content(c, s, r, k, g, it),
                 h.peer, l, DestKey(c, s, p, l, h, i), Content(c, s, p, l, h, i));
  }

  /** A store of the launch that owns the half, under another key or of the same content, disturbs nothing. */
  lemma PutRecvHolds(s: State, s': State, d: nat, k: nat, key: Key, v: Cell, e: nat, l: nat, key': Key, v': Cell)
    requires s'.mem.recv == PutRecv(s, d, k, key, v) && Holds(RecvHalf(s, e, l % 2), l, key', v')
    requires e == d && l % 2 == k % 2 ==> l == k && (key' == key ==> v' == v)
    ensures Holds(RecvHalf(s', e, l % 2), l, key', v')
  {
  }

  // ---- payloads ----

  /** What a warp copies directly is the item's content. */
  lemma PayloadIsContent(c: Config, s: State, r: nat, k: nat, g: Group, it: Item)
    requires WellFormed(c) && History(c, s) && ClaimOrder(c, s) && PackedRows(c, s) && Staged(c, s)
    requires Fits(c, Send(r, k, g, it)) && k == s.round[r] && Caused(c, s.done, Send(r, k, g, it))
    ensures Payload(c, s, r, k, g, it) == Content(c, s, r, k, g, it)
  {
    if c.plan[k].Dispatch? {
      Why(c, s, Claim(r, k, g, it));
      assert StagedToken(c, s, r, k, it.t);
    } else {
      CombineItem(c, s, r, k, g, it);
    }
  }

  /** What the fabric reads from the send buffer, however late, is the item's content. */
  lemma SourceIsContent(c: Config, s: State, r: nat, qp: nat, q: Request)
    requires WellFormed(c) && History(c, s) && ClaimOrder(c, s) && Staged(c, s)
    requires RequestOk(c, s, r, qp, q) && q.Write?
    ensures Read(SendHalf(s, r, q.k % 2), q.src) == Content(c, s, r, q.k, q.g, q.it)
  {
    var k, g, it := q.k, q.g, q.it;
    Why(c, s, Send(r, k, g, it));
    ArrivalWindow(c, s, r, k, g, it);
    OneLaunchApart(c, s, g.peer, r);
    if c.plan[k].Dispatch? {
      Why(c, s, Claim(r, k, g, it));
      assert StagedToken(c, s, r, k, it.t);
    } else {
      assert StagedRow(c, s, r, k, g, it);
    }
  }
}
