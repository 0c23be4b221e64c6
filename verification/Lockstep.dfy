/** How far ranks can drift apart, and when a message can arrive. */
module Lockstep {
  import opened Config
  import opened Protocol
  import opened Invariant
  import opened KeepHistory

  /** A rank that has left launch k has every signal of every peer for that launch, so each peer
      had entered the launch and cleaned the other half before signalling. */
  lemma PeerSignalled(c: Config, s: State, q: nat, p: nat, k: nat, local: nat)
    requires WellFormed(c) && History(c, s)
    requires q < c.ranks && p < c.ranks && local < c.locals && k < s.round[q]
    ensures k <= s.round[p]
    ensures Signal(p, k, Group(q, local)) in s.done
    ensures LandSignal(p, k, Group(q, local)) in s.done
    ensures AllLanded(c, s.done, p, k, Group(q, local))
    ensures AllClean(c, s.done, p, k)
  {
    assert Complete(c, s.done, q, k);
    Why(c, s, Poll(q, k, Group(p, local)));
    Why(c, s, LandSignal(p, k, Group(q, local)));
    Why(c, s, Signal(p, k, Group(q, local)));
  }

  /** Ranks are never more than one launch apart. */
  lemma OneLaunchApart(c: Config, s: State, p: nat, q: nat)
    requires WellFormed(c) && History(c, s) && p < c.ranks && q < c.ranks
    ensures s.round[q] <= s.round[p] + 1
  {
    if s.round[q] > 0 {
      PeerSignalled(c, s, q, p, s.round[q] - 1, 0);
    }
  }

  /** Data of launch k that has not landed finds its receiver in launch k or just before it. */
  lemma ArrivalWindow(c: Config, s: State, r: nat, k: nat, g: Group, it: Item)
    requires WellFormed(c) && History(c, s)
    requires r < c.ranks && k <= s.round[r] && k < |c.plan| && IsGroup(c, g) && IsItem(c, r, k, g, it)
    requires Land(r, k, g, it) !in s.done
    ensures s.round[g.peer] <= k <= s.round[g.peer] + 1
  {
    OneLaunchApart(c, s, g.peer, r);
    if s.round[g.peer] > k {
      PeerSignalled(c, s, g.peer, r, k, g.local);
    }
  }

  /** A signal that has not landed finds its word cleaned. */
  lemma SignalWindow(c: Config, s: State, r: nat, k: nat, g: Group)
    requires WellFormed(c) && History(c, s)
    requires r < c.ranks && k <= s.round[r] && k < |c.plan| && IsGroup(c, g)
    requires LandSignal(r, k, g) !in s.done
    ensures s.round[g.peer] <= k <= s.round[g.peer] + 1
    ensures Armed(s, g.peer, k, Word(c, k, r, g.local))
  {
    OneLaunchApart(c, s, g.peer, r);
    if s.round[g.peer] > k {
      PeerSignalled(c, s, g.peer, r, k, g.local);
    }
    if k > 0 {
      PeerSignalled(c, s, r, g.peer, k - 1, g.local);
      WordInRange(c, k, Group(r, g.local));
    }
  }
}
