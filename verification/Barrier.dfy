/** Consecutive inter-rank barriers over tagged slots: every interleaving of every rank's threads. */
module Barrier {
  import Arith

  const TAG: int := 1024
  const SLOTS: nat := 32768

  /** Where a lane stands in the barrier its rank is in. */
  datatype Lane = Idle | Added | Subtracted | SawZero

  /** round[r] counts the barriers that rank r has left; slot (r, i) is word i of rank r's task array. */
  datatype State = State(round: seq<nat>, lane: seq<seq<Lane>>, slot: map<(nat, nat), int>)

  datatype Step = Add(r: nat, t: nat) | Subtract(r: nat, t: nat) | See(r: nat, t: nat) | Leave(r: nat)

  /** move_fifo_slots, `n` times from 0. */
  function Head(ranks: nat, n: nat): nat
    requires ranks > 0
  {
    if n == 0 then 0 else (Head(ranks, n - 1) + ranks) % SLOTS
  }

  ghost predicate Shape(ranks: nat, s: State)
  {
    && 0 < ranks <= 32 && |s.round| == ranks && |s.lane| == ranks
    && forall r :: 0 <= r < ranks ==> |s.lane[r]| == ranks
  }

  function Slot(s: State, r: nat, i: nat): int
  {
    if (r, i) in s.slot then s.slot[(r, i)] else 0
  }

  function Base(ranks: nat, s: State, r: nat): nat
    requires ranks > 0 && r < |s.round|
  {
    Head(ranks, s.round[r])
  }

  ghost predicate Enabled(ranks: nat, s: State, step: Step)
    requires Shape(ranks, s)
  {
    && step.r < ranks
    && (step.Add? ==> step.t < ranks && s.lane[step.r][step.t] == Idle)
    && (step.Subtract? ==> step.t < ranks && s.lane[step.r][step.t] == Added)
    && (step.See? ==> step.t < ranks && s.lane[step.r][step.t] == Subtracted
                      && Slot(s, step.r, Base(ranks, s, step.r) + step.t) == 0)
    && (step.Leave? ==> forall t :: 0 <= t < ranks ==> s.lane[step.r][t] == SawZero)
  }

  function SetLane(ranks: nat, s: State, r: nat, t: nat, l: Lane): State
    requires r < |s.lane| && t < |s.lane[r]|
  {
    s.(lane := s.lane[r := s.lane[r][t := l]])
  }

  function Bumped(s: State, r: nat, i: nat, delta: int): State
  {
    s.(slot := s.slot[(r, i) := Slot(s, r, i) + delta])
  }

  ghost function Apply(ranks: nat, s: State, step: Step): State
    requires Shape(ranks, s) && Enabled(ranks, s, step)
  {
    if step.Add? then
      SetLane(ranks, Bumped(s, step.r, Base(ranks, s, step.r) + step.t, TAG), step.r, step.t, Added)
    else if step.Subtract? then
      SetLane(ranks, Bumped(s, step.t, Base(ranks, s, step.r) + step.r, 0 - TAG), step.r, step.t, Subtracted)
    else if step.See? then
      SetLane(ranks, s, step.r, step.t, SawZero)
    else
      s.(round := s.round[step.r := s.round[step.r] + 1], lane := s.lane[step.r := seq(ranks, t => Idle)])
  }

  function Init(ranks: nat): State
  {
    State(seq(ranks, r => 0), seq(ranks, r => seq(ranks, t => Idle)), map[])
  }

  // ---- the invariant ----

  /** Rank r's lane t has added its tag for barrier n. */
  predicate HasAdded(s: State, r: nat, t: nat, n: nat)
    requires r < |s.round| && r < |s.lane| && t < |s.lane[r]|
  {
    s.round[r] > n || (s.round[r] == n && s.lane[r][t] != Idle)
  }

  /** Rank r's lane t has subtracted its tag for barrier n, in rank t's slot r: rank r has entered. */
  predicate HasSubtracted(s: State, r: nat, t: nat, n: nat)
    requires r < |s.round| && r < |s.lane| && t < |s.lane[r]|
  {
    s.round[r] > n || (s.round[r] == n && s.lane[r][t] != Idle && s.lane[r][t] != Added)
  }

  /** What slot t of rank r holds for barrier n. */
  function Due(s: State, r: nat, t: nat, n: nat): int
    requires r < |s.round| && r < |s.lane| && t < |s.lane[r]|
    requires t < |s.round| && t < |s.lane| && r < |s.lane[t]|
  {
    (if HasAdded(s, r, t, n) then TAG else 0) - (if HasSubtracted(s, t, r, n) then TAG else 0)
  }

  /** Ranks are in barrier m or m + 1. */
  ghost predicate Rounds(ranks: nat, s: State, m: nat)
    requires Shape(ranks, s)
  {
    && (forall r :: 0 <= r < ranks ==> m <= s.round[r] <= m + 1)
    && (exists r :: 0 <= r < ranks && s.round[r] == m)
  }

  /** Every rank has entered barrier n, as rank r's slots record it. */
  ghost predicate AllEntered(ranks: nat, s: State, r: nat, n: nat)
    requires Shape(ranks, s) && r < ranks
  {
    forall q :: 0 <= q < ranks ==> HasSubtracted(s, q, r, n)
  }

  /** A lane that saw zero, or a rank that left, has been met by its peer. */
  ghost predicate Met(ranks: nat, s: State)
    requires Shape(ranks, s)
  {
    && (forall r, t :: 0 <= r < ranks && 0 <= t < ranks && s.lane[r][t] == SawZero ==>
        HasSubtracted(s, t, r, s.round[r]))
    && (forall r :: 0 <= r < ranks && s.round[r] > 0 ==> AllEntered(ranks, s, r, s.round[r] - 1))
  }

  /** The word at i belongs to barrier n. */
  predicate InWindow(ranks: nat, n: nat, i: nat)
    requires ranks > 0
  {
    Head(ranks, n) <= i < Head(ranks, n) + ranks
  }

  /** Each word of the two windows in use holds what it owes. */
  ghost predicate Owed(ranks: nat, s: State, m: nat)
    requires Shape(ranks, s)
  {
    forall r, t, n :: 0 <= r < ranks && 0 <= t < ranks && m <= n <= m + 1 ==>
      Slot(s, r, Head(ranks, n) + t) == Due(s, r, t, n)
  }

  /** Every other word is zero. */
  ghost predicate Clear(ranks: nat, s: State, m: nat)
    requires Shape(ranks, s)
  {
    forall r, i :: 0 <= r < ranks && 0 <= i && !InWindow(ranks, m, i) && !InWindow(ranks, m + 1, i) ==>
        Slot(s, r, i) == 0
  }

  ghost predicate Balanced(ranks: nat, s: State, m: nat)
    requires Shape(ranks, s)
  {
    Owed(ranks, s, m) && Clear(ranks, s, m)
  }

  ghost predicate Inv(ranks: nat, s: State, m: nat)
  {
    Shape(ranks, s) && Rounds(ranks, s, m) && Met(ranks, s) && Balanced(ranks, s, m)
  }

  lemma {:induction false} InitInv(ranks: nat)
    requires 0 < ranks <= 32
    ensures Inv(ranks, Init(ranks), 0)
  {
    assert Init(ranks).round[0] == 0;
  }

  /** The windows of three consecutive barriers do not meet, wherever the head wraps. */
  lemma {:induction false} WindowsApart(ranks: nat, n: nat, i: nat)
    requires 0 < ranks <= 32
    ensures InWindow(ranks, n, i) ==> !InWindow(ranks, n + 1, i) && !InWindow(ranks, n + 2, i)
  {
    assert Head(ranks, n) < SLOTS;
    var h := Head(ranks, n);
    assert Head(ranks, n + 1) == (h + ranks) % SLOTS;
    assert Head(ranks, n + 2) == (Head(ranks, n + 1) + ranks) % SLOTS;
  }

  /** A word in use belongs to one barrier and one lane. */
  lemma {:induction false} WordUnique(ranks: nat, m: nat, n: nat, b: nat, k: nat, t: nat)
    requires 0 < ranks <= 32 && b < ranks && t < ranks && m <= n <= m + 1 && m <= k <= m + 1
    ensures Head(ranks, n) + b == Head(ranks, k) + t ==> n == k && b == t
  {
    var i := Head(ranks, n) + b;
    assert InWindow(ranks, n, i);
    WindowsApart(ranks, m, i);
  }

  lemma {:induction false} BumpSlot(s: State, s': State, a: nat, at: nat, delta: int, r: nat, i: nat)
    requires s'.slot == Bumped(s, a, at, delta).slot
    ensures Slot(s', r, i) == Slot(s, r, i) + if r == a && i == at then delta else 0
  {
  }

  /** One word changes, and what that word owes changes by as much: the books still balance. */
  lemma {:induction false} BumpOwed(ranks: nat, s: State, s': State, m: nat, a: nat, b: nat, n: nat, delta: int)
    requires Shape(ranks, s) && Shape(ranks, s') && Owed(ranks, s, m)
    requires a < ranks && b < ranks && m <= n <= m + 1
    requires s'.slot == Bumped(s, a, Head(ranks, n) + b, delta).slot
    requires forall r, t, k :: 0 <= r < ranks && 0 <= t < ranks && m <= k <= m + 1 ==>
               Due(s', r, t, k) == Due(s, r, t, k) + if r == a && t == b && k == n then delta else 0
    ensures Owed(ranks, s', m)
  {
    forall r, t, k | 0 <= r < ranks && 0 <= t < ranks && m <= k <= m + 1
      ensures Slot(s', r, Head(ranks, k) + t) == Due(s', r, t, k)
    {
      BumpWord(ranks, s, s', m, a, b, n, delta, r, t, k);
      assert Due(s', r, t, k) == Due(s, r, t, k) + if r == a && t == b && k == n then delta else 0;
    }
  }

  lemma {:induction false} BumpWord(ranks: nat, s: State, s': State, m: nat, a: nat, b: nat, n: nat, delta: int,
                              r: nat, t: nat, k: nat)
    requires Shape(ranks, s) && Owed(ranks, s, m)
    requires a < ranks && b < ranks && m <= n <= m + 1 && r < ranks && t < ranks && m <= k <= m + 1
    requires s'.slot == Bumped(s, a, Head(ranks, n) + b, delta).slot
    ensures Slot(s', r, Head(ranks, k) + t) == Due(s, r, t, k) + if r == a && t == b && k == n then delta else 0
  {
    WordUnique(ranks, m, n, b, k, t);
    BumpSlot(s, s', a, Head(ranks, n) + b, delta, r, Head(ranks, k) + t);
  }

  lemma {:induction false} BumpClear(ranks: nat, s: State, s': State, m: nat, a: nat, b: nat, n: nat, delta: int)
    requires Shape(ranks, s) && Shape(ranks, s') && Clear(ranks, s, m)
    requires a < ranks && b < ranks && m <= n <= m + 1
    requires s'.slot == Bumped(s, a, Head(ranks, n) + b, delta).slot
    ensures Clear(ranks, s', m)
  {
    assert InWindow(ranks, n, Head(ranks, n) + b);
    forall r, i | 0 <= r < ranks && 0 <= i && !InWindow(ranks, m, i) && !InWindow(ranks, m + 1, i)
      ensures Slot(s', r, i) == 0
    {
      assert Slot(s, r, i) == 0;
    }
  }

  /** Only lane t of rank r moves, and it moves forward to l. */
  ghost predicate LaneMoves(ranks: nat, s: State, s': State, r: nat, t: nat, l: Lane)
    requires Shape(ranks, s) && r < ranks && t < ranks
  {
    && s'.round == s.round && s'.lane == s.lane[r := s.lane[r][t := l]]
    && (if s.lane[r][t] == Idle then l == Added else l == Subtracted || l == SawZero)
  }

  lemma {:induction false} MetStep(ranks: nat, s: State, s': State, r: nat, t: nat, l: Lane)
    requires Shape(ranks, s) && Met(ranks, s) && r < ranks && t < ranks && LaneMoves(ranks, s, s', r, t, l)
    requires l == SawZero ==> HasSubtracted(s, t, r, s.round[r])
    ensures Shape(ranks, s') && Met(ranks, s')
  {
    assert forall a, b :: 0 <= a < ranks && 0 <= b < ranks ==>
        s'.lane[a][b] == if a == r && b == t then l else s.lane[a][b];
    assert forall a, b, n :: 0 <= a < ranks && 0 <= b < ranks && 0 <= n && HasSubtracted(s, a, b, n) ==>
        HasSubtracted(s', a, b, n);
    forall a | 0 <= a < ranks && s'.round[a] > 0
      ensures AllEntered(ranks, s', a, s'.round[a] - 1)
    {
      assert AllEntered(ranks, s, a, s.round[a] - 1);
    }
  }

  lemma {:induction false} DueStep(ranks: nat, s: State, s': State, r: nat, t: nat, l: Lane, a: nat, b: nat, n: nat)
    requires Shape(ranks, s) && r < ranks && t < ranks && LaneMoves(ranks, s, s', r, t, l) && a < ranks && b < ranks
    requires s.lane[r][t] == Added ==> l == Subtracted
    ensures Due(s', a, b, n) == Due(s, a, b, n)
              + (if a == r && b == t && n == s.round[r] && s.lane[r][t] == Idle then TAG else 0)
              - (if b == r && a == t && n == s.round[r] && s.lane[r][t] == Added then TAG else 0)
  {
    assert s'.lane[a][b] == if a == r && b == t then l else s.lane[a][b];
    assert s'.lane[b][a] == if b == r && a == t then l else s.lane[b][a];
  }

  lemma {:induction false} AddInv(ranks: nat, s: State, m: nat, r: nat, t: nat)
    requires Inv(ranks, s, m) && Enabled(ranks, s, Add(r, t))
    ensures Inv(ranks, Apply(ranks, s, Add(r, t)), m)
  {
    var s' := Apply(ranks, s, Add(r, t));
    MetStep(ranks, s, s', r, t, Added);
    forall a, b, n | 0 <= a < ranks && 0 <= b < ranks && m <= n <= m + 1
      ensures Due(s', a, b, n) == Due(s, a, b, n) + if a == r && b == t && n == s.round[r] then TAG else 0
    {
      DueStep(ranks, s, s', r, t, Added, a, b, n);
    }
    BumpOwed(ranks, s, s', m, r, t, s.round[r], TAG);
    BumpClear(ranks, s, s', m, r, t, s.round[r], TAG);
  }

  lemma {:induction false} SubtractInv(ranks: nat, s: State, m: nat, r: nat, t: nat)
    requires Inv(ranks, s, m) && Enabled(ranks, s, Subtract(r, t))
    ensures Inv(ranks, Apply(ranks, s, Subtract(r, t)), m)
  {
    var s' := Apply(ranks, s, Subtract(r, t));
    MetStep(ranks, s, s', r, t, Subtracted);
    forall a, b, n | 0 <= a < ranks && 0 <= b < ranks && m <= n <= m + 1
      ensures Due(s', a, b, n) == Due(s, a, b, n) + if a == t && b == r && n == s.round[r] then 0 - TAG else 0
    {
      DueStep(ranks, s, s', r, t, Subtracted, a, b, n);
    }
    BumpOwed(ranks, s, s', m, t, r, s.round[r], 0 - TAG);
    BumpClear(ranks, s, s', m, t, r, s.round[r], 0 - TAG);
  }

  /** A lane that reads zero after its own add knows that its peer has subtracted. */
  lemma {:induction false} ZeroMeansMet(ranks: nat, s: State, m: nat, r: nat, t: nat)
    requires Inv(ranks, s, m) && Enabled(ranks, s, See(r, t))
    ensures HasSubtracted(s, t, r, s.round[r])
  {
    assert Slot(s, r, Head(ranks, s.round[r]) + t) == Due(s, r, t, s.round[r]);
  }

  lemma {:induction false} SeeInv(ranks: nat, s: State, m: nat, r: nat, t: nat)
    requires Inv(ranks, s, m) && Enabled(ranks, s, See(r, t))
    ensures Inv(ranks, Apply(ranks, s, See(r, t)), m)
  {
    var s' := Apply(ranks, s, See(r, t));
    ZeroMeansMet(ranks, s, m, r, t);
    MetStep(ranks, s, s', r, t, SawZero);
    SameSlots(ranks, s, s', m, r, t);
  }

  lemma {:induction false} SameSlots(ranks: nat, s: State, s': State, m: nat, r: nat, t: nat)
    requires Shape(ranks, s) && Shape(ranks, s') && Balanced(ranks, s, m) && s'.slot == s.slot && r < ranks && t < ranks
    requires LaneMoves(ranks, s, s', r, t, SawZero) && s.lane[r][t] == Subtracted
    ensures Balanced(ranks, s', m)
  {
    assert forall a: nat, i: nat :: Slot(s', a, i) == Slot(s, a, i);
    forall a, b, n | 0 <= a < ranks && 0 <= b < ranks && m <= n <= m + 1
      ensures Slot(s', a, Head(ranks, n) + b) == Due(s', a, b, n)
    {
      DueStep(ranks, s, s', r, t, SawZero, a, b, n);
    }
  }

  /** A rank leaves only a barrier that every rank has entered. */
  lemma {:induction false} LeaveMeans(ranks: nat, s: State, m: nat, r: nat)
    requires Inv(ranks, s, m) && Enabled(ranks, s, Leave(r))
    ensures s.round[r] == m
    ensures AllEntered(ranks, s, r, s.round[r])
  {
    forall q | 0 <= q < ranks
      ensures HasSubtracted(s, q, r, s.round[r])
    {
      assert s.lane[r][q] == SawZero;
    }
    var q :| 0 <= q < ranks && s.round[q] == m;
    assert HasSubtracted(s, q, r, s.round[r]);
  }

  /** The window moves on once the last rank has left barrier m. */
  lemma {:induction false} SlideInv(ranks: nat, s: State, m: nat)
    requires Shape(ranks, s) && Met(ranks, s) && Balanced(ranks, s, m)
    requires forall r :: 0 <= r < ranks ==> s.round[r] == m + 1
    ensures Inv(ranks, s, m + 1)
  {
    assert s.round[0] == m + 1;
    SlideClear(ranks, s, m);
    SlideOwed(ranks, s, m);
  }

  lemma {:induction false} SlideOwed(ranks: nat, s: State, m: nat)
    requires Shape(ranks, s) && Balanced(ranks, s, m)
    requires forall r :: 0 <= r < ranks ==> s.round[r] == m + 1
    ensures Owed(ranks, s, m + 1)
  {
    forall r, t, n | 0 <= r < ranks && 0 <= t < ranks && m + 1 <= n <= m + 2
      ensures Slot(s, r, Head(ranks, n) + t) == Due(s, r, t, n)
    {
      if n == m + 2 {
        FreshWord(ranks, m, Head(ranks, n) + t);
        assert Slot(s, r, Head(ranks, n) + t) == 0;
      }
    }
  }

  lemma {:induction false} FreshWord(ranks: nat, m: nat, i: nat)
    requires 0 < ranks <= 32 && InWindow(ranks, m + 2, i)
    ensures !InWindow(ranks, m, i) && !InWindow(ranks, m + 1, i)
  {
    WindowsApart(ranks, m, i);
    WindowsApart(ranks, m + 1, i);
  }

  lemma {:induction false} SlideClear(ranks: nat, s: State, m: nat)
    requires Shape(ranks, s) && Balanced(ranks, s, m)
    requires forall r :: 0 <= r < ranks ==> s.round[r] == m + 1
    ensures Clear(ranks, s, m + 1)
  {
    forall r, i | 0 <= r < ranks && 0 <= i && !InWindow(ranks, m + 1, i) && !InWindow(ranks, m + 2, i)
      ensures Slot(s, r, i) == 0
    {
      if InWindow(ranks, m, i) {
        var t := i - Head(ranks, m);
        assert Slot(s, r, Head(ranks, m) + t) == Due(s, r, t, m);
      }
    }
  }

  lemma {:induction false} LeaveFrame(ranks: nat, s: State, m: nat, r: nat, s': State)
    requires Inv(ranks, s, m) && Enabled(ranks, s, Leave(r)) && s' == Apply(ranks, s, Leave(r)) && s.round[r] == m
    ensures Shape(ranks, s') && forall a, b, n :: 0 <= a < ranks && 0 <= b < ranks && 0 <= n ==>
              HasAdded(s', a, b, n) == HasAdded(s, a, b, n) && HasSubtracted(s', a, b, n) == HasSubtracted(s, a, b, n)
  {
    assert forall a, b :: 0 <= a < ranks && 0 <= b < ranks ==> s'.lane[a][b] == if a == r then Idle else s.lane[a][b];
  }

  lemma {:induction false} LeaveMet(ranks: nat, s: State, m: nat, r: nat, s': State)
    requires Inv(ranks, s, m) && Enabled(ranks, s, Leave(r)) && s' == Apply(ranks, s, Leave(r))
    ensures Shape(ranks, s') && Met(ranks, s')
  {
    LeaveMeans(ranks, s, m, r);
    LeaveFrame(ranks, s, m, r, s');
    forall a | 0 <= a < ranks && s'.round[a] > 0
      ensures AllEntered(ranks, s', a, s'.round[a] - 1)
    {
      assert AllEntered(ranks, s, a, s'.round[a] - 1);
    }
    assert forall a, b :: 0 <= a < ranks && 0 <= b < ranks ==> s'.lane[a][b] == if a == r then Idle else s.lane[a][b];
  }

  lemma {:induction false} LeaveBalanced(ranks: nat, s: State, m: nat, r: nat, s': State)
    requires Inv(ranks, s, m) && Enabled(ranks, s, Leave(r)) && s' == Apply(ranks, s, Leave(r))
    ensures Shape(ranks, s') && Balanced(ranks, s', m)
  {
    LeaveMeans(ranks, s, m, r);
    LeaveFrame(ranks, s, m, r, s');
    assert forall a: nat, i: nat :: Slot(s', a, i) == Slot(s, a, i);
    assert forall a, t, n :: 0 <= a < ranks && 0 <= t < ranks && 0 <= n ==> Due(s', a, t, n) == Due(s, a, t, n);
  }

  lemma {:induction false} LeaveInv(ranks: nat, s: State, m: nat, r: nat) returns (m': nat)
    requires Inv(ranks, s, m) && Enabled(ranks, s, Leave(r))
    ensures Inv(ranks, Apply(ranks, s, Leave(r)), m')
  {
    LeaveMeans(ranks, s, m, r);
    var s' := Apply(ranks, s, Leave(r));
    LeaveMet(ranks, s, m, r, s');
    LeaveBalanced(ranks, s, m, r, s');
    m' := m;
    if forall q :: 0 <= q < ranks ==> s'.round[q] == m + 1 {
      m' := m + 1;
      SlideInv(ranks, s', m);
    }
  }

  // ---- runs ----

  ghost predicate IsRun(ranks: nat, run: seq<State>, steps: seq<Step>)
  {
    && 0 < ranks <= 32 && |run| == |steps| + 1 && run[0] == Init(ranks)
    && (forall i :: 0 <= i < |run| ==> Shape(ranks, run[i]))
    && (forall i: nat :: i < |steps| ==> StepAt(ranks, run, steps, i))
  }

  /** Step i of the run leads from state i to state i + 1. */
  ghost predicate StepAt(ranks: nat, run: seq<State>, steps: seq<Step>, i: nat)
    requires |run| == |steps| + 1 && i < |steps| && Shape(ranks, run[i])
  {
    Enabled(ranks, run[i], steps[i]) && run[i + 1] == Apply(ranks, run[i], steps[i])
  }

  lemma {:induction false} RunInv(ranks: nat, run: seq<State>, steps: seq<Step>, i: nat) returns (m: nat)
    requires IsRun(ranks, run, steps) && i < |run|
    ensures Inv(ranks, run[i], m)
  {
    if i == 0 {
      InitInv(ranks);
      m := 0;
    } else {
      m := RunInv(ranks, run, steps, i - 1);
      var s, step := run[i - 1], steps[i - 1];
      assert StepAt(ranks, run, steps, i - 1);
      if step.Add? {
        AddInv(ranks, s, m, step.r, step.t);
      } else if step.Subtract? {
        SubtractInv(ranks, s, m, step.r, step.t);
      } else if step.See? {
        SeeInv(ranks, s, m, step.r, step.t);
      } else {
        m := LeaveInv(ranks, s, m, step.r);
      }
    }
  }

  /** A rank that has left barrier n finds that every rank has entered it, on every run. */
  lemma {:induction false} NobodyLeavesEarly(ranks: nat, run: seq<State>, steps: seq<Step>, i: nat, r: nat, q: nat,
                              n: nat)
    requires IsRun(ranks, run, steps) && i < |run| && r < ranks && q < ranks
    requires run[i].round[r] > n
    ensures HasSubtracted(run[i], q, r, n)
  {
    var m := RunInv(ranks, run, steps, i);
    assert AllEntered(ranks, run[i], r, run[i].round[r] - 1);
    assert HasSubtracted(run[i], q, r, run[i].round[r] - 1);
  }

  /** All ranks are between barriers n - 1 and n. */
  ghost predicate Quiet(ranks: nat, s: State, n: nat)
    requires Shape(ranks, s)
  {
    && (forall r :: 0 <= r < ranks ==> s.round[r] == n)
    && (forall r, t :: 0 <= r < ranks && 0 <= t < ranks ==> s.lane[r][t] == Idle)
  }

  lemma {:induction false} WordDue(ranks: nat, s: State, m: nat, r: nat, a: nat)
    requires Inv(ranks, s, m) && r < ranks
    ensures Slot(s, r, a) in {0 - TAG, 0, TAG}
    ensures forall n :: 0 <= n && Quiet(ranks, s, n) ==> Slot(s, r, a) == 0
  {
    if InWindow(ranks, m, a) {
      assert Slot(s, r, Head(ranks, m) + (a - Head(ranks, m))) == Due(s, r, a - Head(ranks, m), m);
    } else if InWindow(ranks, m + 1, a) {
      assert Slot(s, r, Head(ranks, m + 1) + (a - Head(ranks, m + 1))) == Due(s, r, a - Head(ranks, m + 1), m + 1);
    }
  }

  /** Between barriers every word of every rank is zero again, and at all times it is -1024, 0 or 1024. */
  lemma {:induction false} SlotsReturnToZero(ranks: nat, run: seq<State>, steps: seq<Step>, i: nat, r: nat, a: nat)
    requires IsRun(ranks, run, steps) && i < |run| && r < ranks
    ensures Slot(run[i], r, a) in {-1024, 0, 1024}
    ensures forall n :: 0 <= n && Quiet(ranks, run[i], n) ==> Slot(run[i], r, a) == 0
  {
    var m := RunInv(ranks, run, steps, i);
    WordDue(ranks, run[i], m, r, a);
  }

  /** No rank is ever stuck behind a barrier that all have entered: some step is always possible. */
  lemma {:induction false} NeverStuck(ranks: nat, run: seq<State>, steps: seq<Step>, i: nat)
    requires IsRun(ranks, run, steps) && i < |run|
    ensures exists step :: Enabled(ranks, run[i], step)
  {
    var m := RunInv(ranks, run, steps, i);
    var s := run[i];
    if r, t :| 0 <= r < ranks && 0 <= t < ranks && s.lane[r][t] == Idle {
      assert Enabled(ranks, s, Add(r, t));
    } else if r, t :| 0 <= r < ranks && 0 <= t < ranks && s.lane[r][t] == Added {
      assert Enabled(ranks, s, Subtract(r, t));
    } else {
      var r :| 0 <= r < ranks && s.round[r] == m;
      if t :| 0 <= t < ranks && s.lane[r][t] == Subtracted {
        assert Slot(s, r, Head(ranks, m) + t) == Due(s, r, t, m);
        assert HasSubtracted(s, t, r, m);
        assert Enabled(ranks, s, See(r, t));
      } else {
        assert Enabled(ranks, s, Leave(r));
      }
    }
  }

  // ---- every barrier completes ----

  /** Steps a lane has taken in its barrier. */
  function LaneWork(l: Lane): nat
  {
    if l == Idle then 0 else if l == Added then 1 else if l == Subtracted then 2 else 3
  }

  function LanesWork(lanes: seq<Lane>): nat
  {
    if lanes == [] then 0 else LanesWork(lanes[..|lanes| - 1]) + LaneWork(lanes[|lanes| - 1])
  }

  /** Steps of one rank in one barrier: three for each lane, and leaving. */
  function PerBarrier(ranks: nat): nat { 3 * ranks + 1 }

  function RankWork(ranks: nat, round: nat, lanes: seq<Lane>): nat
  {
    round * PerBarrier(ranks) + LanesWork(lanes)
  }

  /** Steps that the ranks below n have taken. */
  function Work(ranks: nat, s: State, n: nat): nat
    requires n <= |s.round| && n <= |s.lane|
  {
    if n == 0 then 0 else Work(ranks, s, n - 1) + RankWork(ranks, s.round[n - 1], s.lane[n - 1])
  }

  lemma {:induction false} LanesWorkSet(lanes: seq<Lane>, t: nat, l: Lane)
    requires t < |lanes|
    ensures LanesWork(lanes[t := l]) == LanesWork(lanes) - LaneWork(lanes[t]) + LaneWork(l)
  {
    var n := |lanes| - 1;
    if t < n {
      LanesWorkSet(lanes[..n], t, l);
      assert lanes[t := l][..n] == lanes[..n][t := l];
    } else {
      assert lanes[t := l][..n] == lanes[..n];
    }
  }

  lemma {:induction false} LanesWorkAll(lanes: seq<Lane>, l: Lane)
    requires forall t :: 0 <= t < |lanes| ==> lanes[t] == l
    ensures LanesWork(lanes) == LaneWork(l) * |lanes|
  {
    if lanes != [] {
      LanesWorkAll(lanes[..|lanes| - 1], l);
    }
  }

  lemma {:induction false} LanesWorkBound(lanes: seq<Lane>)
    ensures LanesWork(lanes) <= 3 * |lanes|
  {
    if lanes != [] {
      LanesWorkBound(lanes[..|lanes| - 1]);
    }
  }

  /** Only rank r's part changes. */
  lemma {:induction false} WorkOfOne(ranks: nat, s: State, s': State, r: nat, n: nat)
    requires n <= |s.round| == |s'.round| && n <= |s.lane| == |s'.lane| && r < |s.round| && r < |s.lane|
    requires forall q :: 0 <= q < n && q != r ==> s'.round[q] == s.round[q] && s'.lane[q] == s.lane[q]
    ensures Work(ranks, s', n) == Work(ranks, s, n) +
              if r < n then RankWork(ranks, s'.round[r], s'.lane[r]) - RankWork(ranks, s.round[r], s.lane[r]) else 0
  {
    if n > 0 {
      WorkOfOne(ranks, s, s', r, n - 1);
    }
  }

  lemma {:induction false} LeaveWork(ranks: nat, round: nat, lanes: seq<Lane>, idle: seq<Lane>)
    requires |lanes| == ranks && |idle| == ranks
    requires forall t :: 0 <= t < ranks ==> lanes[t] == SawZero && idle[t] == Idle
    ensures RankWork(ranks, round + 1, idle) == RankWork(ranks, round, lanes) + 1
  {
    LanesWorkAll(lanes, SawZero);
    LanesWorkAll(idle, Idle);
    Arith.Distribute(round, 1, PerBarrier(ranks));
  }

  /** Every step is one unit of work. */
  lemma {:induction false} StepIsWork(ranks: nat, s: State, step: Step)
    requires Shape(ranks, s) && Enabled(ranks, s, step)
    ensures Shape(ranks, Apply(ranks, s, step))
    ensures Work(ranks, Apply(ranks, s, step), ranks) == Work(ranks, s, ranks) + 1
  {
    var s', r := Apply(ranks, s, step), step.r;
    WorkOfOne(ranks, s, s', r, ranks);
    if step.Leave? {
      LeaveWork(ranks, s.round[r], s.lane[r], s'.lane[r]);
    } else {
      LanesWorkSet(s.lane[r], step.t, s'.lane[r][step.t]);
      assert s'.lane[r] == s.lane[r][step.t := s'.lane[r][step.t]];
    }
  }

  lemma {:induction false} IdleWork(ranks: nat, n: nat)
    requires n <= ranks
    ensures Work(ranks, Init(ranks), n) == 0
  {
    if n > 0 {
      IdleWork(ranks, n - 1);
      LanesWorkAll(Init(ranks).lane[n - 1], Idle);
    }
  }

  lemma {:induction false} RunWork(ranks: nat, run: seq<State>, steps: seq<Step>, i: nat)
    requires IsRun(ranks, run, steps) && i < |run|
    ensures Work(ranks, run[i], ranks) == i
  {
    if i == 0 {
      IdleWork(ranks, ranks);
    } else {
      RunWork(ranks, run, steps, i - 1);
      assert StepAt(ranks, run, steps, i - 1);
      StepIsWork(ranks, run[i - 1], steps[i - 1]);
    }
  }

  /** No rank gets further than the barrier after the one that the slowest rank is in. */
  lemma {:induction false} WorkBound(ranks: nat, s: State, m: nat, n: nat)
    requires Shape(ranks, s) && n <= ranks && forall r :: 0 <= r < ranks ==> s.round[r] <= m + 1
    ensures Work(ranks, s, n) <= n * ((m + 2) * PerBarrier(ranks))
    ensures n > 0 ==> Work(ranks, s, n) < n * ((m + 2) * PerBarrier(ranks))
  {
    if n > 0 {
      var per, most := PerBarrier(ranks), (m + 2) * PerBarrier(ranks);
      WorkBound(ranks, s, m, n - 1);
      LanesWorkBound(s.lane[n - 1]);
      Arith.MulMono(s.round[n - 1], m + 1, per);
      Arith.Distribute(m + 1, 1, per);
      Arith.Distribute(n - 1, 1, most);
    }
  }

  /** Under every schedule, a run of R (n + 2) (3 R + 1) steps has every one of the R ranks past
      barrier n. With NeverStuck, which says that runs can always go on, every barrier completes. */
  lemma {:induction false} EveryBarrierCompletes(ranks: nat, run: seq<State>, steps: seq<Step>, i: nat, n: nat, r: nat)
    requires IsRun(ranks, run, steps) && i < |run| && r < ranks
    requires i >= ranks * ((n + 2) * PerBarrier(ranks))
    ensures run[i].round[r] > n
  {
    var m := RunInv(ranks, run, steps, i);
    RunWork(ranks, run, steps, i);
    WorkBound(ranks, run[i], m, ranks);
    if m <= n {
      Longer(ranks, m, n);
    }
  }

  lemma {:induction false} Longer(ranks: nat, m: nat, n: nat)
    requires m <= n
    ensures ranks * ((m + 2) * PerBarrier(ranks)) <= ranks * ((n + 2) * PerBarrier(ranks))
  {
    var per := PerBarrier(ranks);
    Arith.MulMono(m + 2, n + 2, per);
    Arith.MulMono((m + 2) * per, (n + 2) * per, ranks);
  }

  // ---- the bound on the task array ----

  /** Until it first wraps, the head counts whole barriers. */
  lemma {:induction false} HeadBeforeWrap(ranks: nat, n: nat)
    requires ranks > 0 && n * ranks < SLOTS
    ensures Head(ranks, n) == n * ranks
  {
    if n > 0 {
      var before := (n - 1) * ranks;
      Arith.Distribute(n - 1, 1, ranks);
      Arith.MulMono(0, n - 1, ranks);
      HeadBeforeWrap(ranks, n - 1);
      assert Head(ranks, n) == (before + ranks) % SLOTS;
    }
  }

  lemma {:induction false} LastBarrier(ranks: nat)
    requires 0 < ranks <= 32 && Head(ranks, (SLOTS - 1) / ranks) + ranks <= SLOTS
    ensures SLOTS % ranks == 0
  {
    var last := (SLOTS - 1) / ranks;
    assert last * ranks <= SLOTS - 1 < last * ranks + ranks;
    HeadBeforeWrap(ranks, last);
    Arith.Distribute(last, 1, ranks);
    Arith.DivModUnique(SLOTS, ranks, last + 1, 0);
  }

  /** The words of barrier n are inside the task array. */
  predicate InBounds(ranks: nat, n: nat)
    requires ranks > 0
  {
    Head(ranks, n) + ranks <= 32768
  }

  /** Barriers stay inside the 32768 words for ever exactly when the number of ranks divides 32768. */
  lemma {:induction false} InBoundsIffDivides(ranks: nat)
    requires 0 < ranks <= 32
    ensures (forall n: nat :: InBounds(ranks, n)) <==> 32768 % ranks == 0
  {
    if forall n: nat :: InBounds(ranks, n) {
      var last: nat := (SLOTS - 1) / ranks;
      assert InBounds(ranks, last);
      LastBarrier(ranks);
    }
    if SLOTS % ranks == 0 {
      forall n: nat
        ensures InBounds(ranks, n)
      {
        HeadDivides(ranks, n);
      }
    }
  }

  lemma {:induction false} HeadDivides(ranks: nat, n: nat)
    requires ranks > 0 && SLOTS % ranks == 0
    ensures InBounds(ranks, n) && Head(ranks, n) % ranks == 0
  {
    if n > 0 {
      HeadDivides(ranks, n - 1);
      NextMultiple(Head(ranks, n - 1), ranks);
    }
    Arith.MultiplesApart(SLOTS, Head(ranks, n), ranks);
  }

  lemma {:induction false} NextMultiple(h: nat, d: nat)
    requires d > 0 && h % d == 0 && SLOTS % d == 0 && h + d <= SLOTS
    ensures ((h + d) % SLOTS) % d == 0
  {
    if h + d < SLOTS {
      Arith.DivModUnique(h + d, d, h / d + 1, 0);
    }
  }
}
