/** Every step keeps armed signal words exact: zero, then exactly the signal that landed. */
module KeepWords {
  import opened Config
  import opened Protocol
  import opened Invariant
  import opened KeepHistory
  import opened Lockstep

  ghost function WordValue(c: Config, s: State, d: nat, k: nat, g: Group): int
    requires WellFormed(c) && k < |c.plan|
  {
    if LandSignal(g.peer, k, Group(d, g.local)) in s.done then SignalValue(c, g.peer, k, Group(d, g.local)) else 0
  }

  lemma WordsFrame(c: Config, s: State, s': State)
    requires WellFormed(c) && |s.round| == c.ranks && Words(c, s)
    requires s'.round == s.round && s'.mem.words == s.mem.words && s.done <= s'.done
    requires forall ev :: ev in s'.done && ev !in s.done ==> !ev.Clean? && !ev.LandSignal?
    ensures Words(c, s')
  {
    assert forall r, h, w :: WordAt(s', r, h, w) == WordAt(s, r, h, w);
  }

  /** No clean erases a signal of the launch it prepares for: none can have been sent. */
  lemma CleanIsEarly(c: Config, s: State, r: nat, k: nat, w: nat, p: nat, g: Group)
    requires WellFormed(c) && History(c, s)
    requires r < c.ranks && k == s.round[r] && w < c.experts && Clean(r, k, w) !in s.done
    requires g.peer == r
    ensures LandSignal(p, k + 1, g) !in s.done && Signal(p, k + 1, g) !in s.done
  {
    Why(c, s, LandSignal(p, k + 1, g));
    Why(c, s, Signal(p, k + 1, g));
    if Signal(p, k + 1, g) in s.done {
      PeerSignalled(c, s, p, r, k, 0);
    }
  }

  lemma WordsClean(c: Config, s: State, s': State, r: nat, k: nat, w: nat)
    requires WellFormed(c) && History(c, s) && Words(c, s)
    requires Fits(c, Clean(r, k, w)) && k == s.round[r] && Clean(r, k, w) !in s.done
    requires s'.round == s.round && s'.done == s.done + {Clean(r, k, w)}
    requires s'.mem.words == PutWord(s, r, 1 - k % 2, w, 0)
    ensures Words(c, s')
  {
    forall d: nat, l: nat, g | d < c.ranks && l < |c.plan| && IsGroup(c, g) &&
        Armed(s', d, l, Word(c, l, g.peer, g.local))
      ensures WordAt(s', d, l % 2, Word(c, l, g.peer, g.local)) == WordValue(c, s', d, l, g)
    {
      if d == r && l == k + 1 && Word(c, l, g.peer, g.local) == w {
        CleanIsEarly(c, s, r, k, w, g.peer, Group(r, g.local));
      } else {
        OthersStay(c, s, s', r, k, w, d, l, g);
      }
    }
  }

  /** A clean disarms nothing and changes no other armed word. */
  lemma OthersStay(c: Config, s: State, s': State, r: nat, k: nat, w: nat, d: nat, l: nat, g: Group)
    requires WellFormed(c) && |s.round| == c.ranks && Words(c, s)
    requires r < c.ranks && k == s.round[r] && w < c.experts && Clean(r, k, w) !in s.done
    requires s'.round == s.round && s'.done == s.done + {Clean(r, k, w)}
    requires s'.mem.words == PutWord(s, r, 1 - k % 2, w, 0)
    requires d < c.ranks && l < |c.plan| && IsGroup(c, g) && Armed(s', d, l, Word(c, l, g.peer, g.local))
    requires !(d == r && l == k + 1 && Word(c, l, g.peer, g.local) == w)
    ensures WordAt(s', d, l % 2, Word(c, l, g.peer, g.local)) == WordValue(c, s', d, l, g)
  {
    var v := Word(c, l, g.peer, g.local);
    assert Armed(s, d, l, v);
    assert (d, l % 2, v) != (r, 1 - k % 2, w);
  }

  /** A signal lands on a zero word, whether it is stored or added. */
  lemma LandsOnZero(c: Config, s: State, r: nat, k: nat, g: Group)
    requires WellFormed(c) && History(c, s) && Words(c, s)
    requires r < c.ranks && k <= s.round[r] && k < |c.plan| && IsGroup(c, g)
    requires LandSignal(r, k, g) !in s.done
    ensures WordAt(s, g.peer, k % 2, Word(c, k, r, g.local)) == 0
  {
    SignalWindow(c, s, r, k, g);
    var from := Group(r, g.local);
    assert IsGroup(c, from) && Armed(s, g.peer, k, Word(c, k, from.peer, from.local));
    assert Group(g.peer, from.local) == g;
  }

  lemma WordsLand(c: Config, s: State, s': State, r: nat, k: nat, g: Group)
    requires WellFormed(c) && History(c, s) && Words(c, s)
    requires r < c.ranks && k <= s.round[r] && k < |c.plan| && IsGroup(c, g)
    requires LandSignal(r, k, g) !in s.done
    requires s'.round == s.round && s.done <= s'.done && LandSignal(r, k, g) in s'.done
    requires forall ev :: ev in s'.done && ev !in s.done ==>
               !ev.Clean? && (ev.LandSignal? ==> ev == LandSignal(r, k, g))
    requires s'.mem.words == PutWord(s, g.peer, k % 2, Word(c, k, r, g.local), SignalValue(c, r, k, g))
    ensures Words(c, s')
  {
    SignalWindow(c, s, r, k, g);
    forall d: nat, l: nat, h | d < c.ranks && l < |c.plan| && IsGroup(c, h) &&
        Armed(s', d, l, Word(c, l, h.peer, h.local))
      ensures WordAt(s', d, l % 2, Word(c, l, h.peer, h.local)) == WordValue(c, s', d, l, h)
    {
      var v := Word(c, l, h.peer, h.local);
      assert Armed(s, d, l, v);
      if d == g.peer && l == k && h == Group(r, g.local) {
        assert Group(d, h.local) == g;
      } else {
        assert (d, l % 2, v) != (g.peer, k % 2, Word(c, k, r, g.local)) by {
          if d == g.peer && l % 2 == k % 2 && v == Word(c, k, r, g.local) {
            WordInjective(c, k, h, Group(r, g.local));
          }
        }
      }
    }
  }

  lemma WordsAdvance(c: Config, s: State, s': State, r: nat)
    requires WellFormed(c) && History(c, s) && Words(c, s)
    requires r < c.ranks && s.round[r] < |c.plan| && AllRetired(c, s.done, r, s.round[r])
    requires s'.round == s.round[r := s.round[r] + 1] && s'.done == s.done && s'.mem == s.mem
    ensures Words(c, s')
  {
    var k := s.round[r];
    Why(c, s, Retire(r, k, Group(0, 0)));
    Why(c, s, Signal(r, k, Group(0, 0)));
    forall d: nat, l: nat, g | d < c.ranks && l < |c.plan| && IsGroup(c, g) &&
        Armed(s', d, l, Word(c, l, g.peer, g.local))
      ensures WordAt(s', d, l % 2, Word(c, l, g.peer, g.local)) == WordValue(c, s', d, l, g)
    {
      var w := Word(c, l, g.peer, g.local);
      WordInRange(c, l, g);
      Why(c, s, Clean(r, k + 1, w));
      assert Armed(s, d, l, w);
      assert WordAt(s, d, l % 2, w) == WordValue(c, s, d, l, g);
    }
  }
}
