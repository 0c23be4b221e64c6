/** The count a sender publishes for an expert is the number of messages it sends to it: the strided
    per-lane scan of the routing table, summed over the warp, equals the number of tasks. */
module Counting {
  import Arith
  import opened Config
  import opened Warp
  import opened Strided

  /** The routing table as it lies in memory, token after token. */
  function Flatten(topk: seq<seq<int>>): seq<int>
  {
    if topk == [] then [] else Flatten(topk[..|topk| - 1]) + topk[|topk| - 1]
  }

  function Occurrences(s: seq<int>, e: int): nat
  {
    if s == [] then 0 else Occurrences(s[..|s| - 1], e) + if s[|s| - 1] == e then 1 else 0
  }

  /** What one lane sees of e: the positions congruent to it modulo 32. */
  function LaneOccurrences(s: seq<int>, e: int, lane: nat): nat
  {
    if s == [] then 0
    else LaneOccurrences(s[..|s| - 1], e, lane) + if s[|s| - 1] == e && (|s| - 1) % LANES == lane then 1 else 0
  }

  // ---- the scan ----

  /** The counts of a lane for the experts [first, first + width) of its block. */
  function LaneCounts(s: seq<int>, first: nat, width: nat, lane: nat): seq<int>
  {
    seq(width, m requires 0 <= m < width => LaneOccurrences(s, first + m, lane))
  }

  /** Seeing e adds one to its counter, if e is in the block. */
  function Bump(counts: seq<int>, first: nat, e: int): seq<int>
  {
    if first <= e < first + |counts| then counts[e - first := counts[e - first] + 1] else counts
  }

  /** One lane scans its positions of the table. */
  method LaneScan(table: seq<int>, lane: nat, first: nat, width: nat) returns (counts: seq<int>)
    requires lane < LANES
    ensures counts == LaneCounts(table, first, width, lane)
  {
    counts := seq(width, m => 0);
    var i := lane;
    CountsStart(table[..Min(lane, |table|)], first, width, lane);
    while i < |table|
      invariant lane <= i && i % LANES == lane
      invariant counts == LaneCounts(table[..Min(i, |table|)], first, width, lane)
      decreases |table| - i
    {
      CountsNext(table, first, width, lane, i);
      var e := table[i];
      if first <= e < first + width {
        counts := counts[e - first := counts[e - first] + 1];
      }
      i := i + LANES;
    }
    assert table[..|table|] == table;
  }

  lemma {:induction false} CountsStart(s: seq<int>, first: nat, width: nat, lane: nat)
    requires lane < LANES && |s| <= lane
    ensures LaneCounts(s, first, width, lane) == seq(width, m => 0)
  {
    var counts := LaneCounts(s, first, width, lane);
    forall m | 0 <= m < |counts|
      ensures counts[m] == 0
    {
      NothingSeen(s, first + m, lane);
    }
  }

  lemma {:induction false} CountsNext(table: seq<int>, first: nat, width: nat, lane: nat, i: nat)
    requires i < |table| && i % LANES == lane
    ensures LaneCounts(table[..Min(i + LANES, |table|)], first, width, lane)
            == Bump(LaneCounts(table[..i], first, width, lane), first, table[i])
  {
    var before := LaneCounts(table[..i], first, width, lane);
    var after := LaneCounts(table[..Min(i + LANES, |table|)], first, width, lane);
    forall m | 0 <= m < |after|
      ensures after[m] == Bump(before, first, table[i])[m]
    {
      NextSeen(table, first + m, lane, i);
    }
  }

  function Min(a: nat, b: nat): nat { if a < b then a else b }

  lemma {:induction false} NothingSeen(s: seq<int>, e: int, lane: nat)
    requires lane < LANES && |s| <= lane
    ensures LaneOccurrences(s, e, lane) == 0
  {
    if s != [] {
      NothingSeen(s[..|s| - 1], e, lane);
    }
  }

  /** Between two positions of a lane it sees nothing. */
  lemma {:induction false} NextSeen(table: seq<int>, e: int, lane: nat, i: nat)
    requires i < |table| && i % LANES == lane
    ensures LaneOccurrences(table[..Min(i + LANES, |table|)], e, lane)
            == LaneOccurrences(table[..i], e, lane) + if table[i] == e then 1 else 0
  {
    assert table[..i + 1][..i] == table[..i];
    GapUnseen(table, e, lane, i + 1, Min(i + LANES, |table|));
  }

  lemma {:induction false} GapUnseen(table: seq<int>, e: int, lane: nat, lo: nat, hi: nat)
    requires lo <= hi <= |table| && hi < lo + LANES && lo > 0 && (lo - 1) % LANES == lane
    ensures LaneOccurrences(table[..hi], e, lane) == LaneOccurrences(table[..lo], e, lane)
    decreases hi
  {
    if lo < hi {
      GapUnseen(table, e, lane, lo, hi - 1);
      assert table[..hi][..hi - 1] == table[..hi - 1];
      NotMyTurn(lo - 1, lane, hi - 1);
    }
  }

  /** Between two positions of a lane there is none of it. */
  lemma {:induction false} NotMyTurn(at: nat, lane: nat, x: nat)
    requires at % LANES == lane && at < x < at + LANES
    ensures x % LANES != lane
  {
  }

  /** The warp's scan: every lane counts its share, then the butterfly gives each lane the total. */
  method CountScan(table: seq<int>, first: nat, width: nat) returns (counts: seq<int>)
    ensures |counts| == width
    ensures forall m :: 0 <= m < width ==> counts[m] == Occurrences(table, first + m)
  {
    var lanes: seq<seq<int>> := [];
    for lane := 0 to LANES
      invariant |lanes| == lane
      invariant forall l :: 0 <= l < lane ==> lanes[l] == LaneCounts(table, first, width, l)
    {
      var one := LaneScan(table, lane, first, width);
      lanes := lanes + [one];
    }
    counts := [];
    for m := 0 to width
      invariant |counts| == m
      invariant forall i :: 0 <= i < m ==> counts[i] == Occurrences(table, first + i)
    {
      var v := seq(LANES, l requires 0 <= l < LANES => lanes[l][m]);
      LaneTotal(table, first, width, m, v);
      var total := WarpReduceSum(v);
      counts := counts + [total[0]];
    }
  }

  lemma {:induction false} LaneTotal(table: seq<int>, first: nat, width: nat, m: nat, v: seq<int>)
    requires m < width && |v| == LANES
    requires forall l :: 0 <= l < LANES ==> v[l] == LaneCounts(table, first, width, l)[m]
    ensures Sum(v) == Occurrences(table, first + m)
  {
    assert v == PerLane(table, first + m, LANES);
    LanesCoverAll(table, first + m);
  }

  ghost function PerLane(table: seq<int>, e: int, n: nat): seq<int>
  {
    seq(n, l requires 0 <= l < n => LaneOccurrences(table, e, l) as int)
  }

  lemma {:induction false} LanesCoverAll(s: seq<int>, e: int)
    ensures Sum(PerLane(s, e, LANES)) == Occurrences(s, e)
  {
    if s == [] {
      SumZero(PerLane(s, e, LANES));
    } else {
      var n := |s| - 1;
      LanesCoverAll(s[..n], e);
      SumBump(PerLane(s[..n], e, LANES), PerLane(s, e, LANES), n % LANES, if s[n] == e then 1 else 0);
    }
  }

  lemma {:induction false} SumZero(v: seq<int>)
    requires forall i :: 0 <= i < |v| ==> v[i] == 0
    ensures Sum(v) == 0
  {
    if v != [] {
      SumZero(v[..|v| - 1]);
    }
  }

  lemma {:induction false} SumBump(v: seq<int>, w: seq<int>, j: nat, d: int)
    requires |v| == |w| && j < |v| && forall i :: 0 <= i < |v| ==> w[i] == v[i] + if i == j then d else 0
    ensures Sum(w) == Sum(v) + d
  {
    var n := |v| - 1;
    if j < n {
      SumBump(v[..n], w[..n], j, d);
    } else {
      assert v[..n] == w[..n];
    }
  }

  // ---- counts and tasks ----

  lemma {:induction false} OccurrencesConcat(a: seq<int>, b: seq<int>, e: int)
    ensures Occurrences(a + b, e) == Occurrences(a, e) + Occurrences(b, e)
  {
    if b == [] {
      assert a + b == a;
    } else {
      var n := |b| - 1;
      OccurrencesConcat(a, b[..n], e);
      assert (a + b)[..|a + b| - 1] == a + b[..n];
    }
  }

  /** Positions of row t holding e, as tasks. */
  function RowTasks(row: seq<int>, t: nat, e: int): set<Item>
  {
    set j: nat | j < |row| && row[j] == e :: Tok(t, j)
  }

  lemma {:induction false} RowTasksSize(row: seq<int>, t: nat, e: int)
    ensures |RowTasks(row, t, e)| == Occurrences(row, e)
  {
    if row == [] {
      assert RowTasks(row, t, e) == {};
    } else {
      var n := |row| - 1;
      RowTasksSize(row[..n], t, e);
      if row[n] == e {
        assert RowTasks(row, t, e) == RowTasks(row[..n], t, e) + {Tok(t, n)};
      } else {
        assert RowTasks(row, t, e) == RowTasks(row[..n], t, e);
      }
    }
  }

  function TableTasks(topk: seq<seq<int>>, e: int): set<Item>
  {
    set t: nat, j: nat | t < |topk| && j < |topk[t]| && topk[t][j] == e :: Tok(t, j)
  }

  lemma {:induction false} TableTasksSize(topk: seq<seq<int>>, e: int)
    ensures |TableTasks(topk, e)| == Occurrences(Flatten(topk), e)
  {
    if topk == [] {
      assert TableTasks(topk, e) == {};
    } else {
      var n := |topk| - 1;
      TableTasksSize(topk[..n], e);
      RowTasksSize(topk[n], n, e);
      OccurrencesConcat(Flatten(topk[..n]), topk[n], e);
      assert TableTasks(topk, e) == TableTasks(topk[..n], e) + RowTasks(topk[n], n, e);
    }
  }

  lemma {:induction false} TasksAreTableTasks(c: Config, r: nat, k: nat, e: nat)
    requires WellFormed(c) && r < c.ranks && k < |c.plan| && c.plan[k].Dispatch? && e < c.experts
    ensures Tasks(c, r, k, GroupOf(c, e)) == TableTasks(c.batch(r, k).topk, e)
  {
    var b := c.batch(r, k);
    assert WellFormedBatch(c, b);
    forall it | it in Tasks(c, r, k, GroupOf(c, e))
      ensures it in TableTasks(b.topk, e)
    {
      GroupOfFlat(c, TopkAt(b, it.t, it.j));
      GroupOfFlat(c, e);
    }
  }

  /** For every routing table and every expert, the count published equals the number of sends. */
  lemma {:induction false} CountEqualsSends(c: Config, r: nat, k: nat, e: nat)
    requires WellFormed(c) && r < c.ranks && k < |c.plan| && c.plan[k].Dispatch? && e < c.experts
    ensures Occurrences(Flatten(c.batch(r, k).topk), e) == Sends(c, r, k, GroupOf(c, e))
  {
    TasksAreTableTasks(c, r, k, e);
    TableTasksSize(c.batch(r, k).topk, e);
  }

  // ---- the send loop ----

  const DATA_WARPS: nat := 31

  function EntryAt(topk: seq<seq<int>>, t: nat, j: nat): int
  {
    if t < |topk| && j < |topk[t]| then topk[t][j] else -1
  }

  ghost predicate NoRepeats(sent: seq<Item>)
  {
    forall i, j :: 0 <= i < j < |sent| ==> sent[i] != sent[j]
  }

  /** Exactly the used entries of the tokens in `tokens` were sent, each once. */
  ghost predicate SentFor(topk: seq<seq<int>>, sent: seq<Item>, tokens: set<nat>)
  {
    && NoRepeats(sent)
    && forall it :: it in sent <==> it.Tok? && it.t in tokens && EntryAt(topk, it.t, it.j) >= 0
  }

  /** One token: warp j of the block sends the token to its j-th expert, if there is one. */
  method SendToken(topk: seq<seq<int>>, t: nat, sent: seq<Item>, ghost tokens: set<nat>) returns (sent': seq<Item>)
    requires t < |topk| && |topk[t]| <= DATA_WARPS && t !in tokens && SentFor(topk, sent, tokens)
    ensures SentFor(topk, sent', tokens + {t})
  {
    sent' := sent;
    for warp := 0 to DATA_WARPS
      invariant NoRepeats(sent')
      invariant forall it :: it in sent' <==>
                  it.Tok? && EntryAt(topk, it.t, it.j) >= 0 && (it.t in tokens || (it.t == t && it.j < warp))
    {
      var dst := if warp < |topk[t]| then topk[t][warp] else -1;
      if dst >= 0 {
        assert Tok(t, warp) !in sent';
        sent' := sent' + [Tok(t, warp)];
      }
    }
  }

  /** Block sm: the tokens sm, sm + sms, sm + 2 * sms, ... */
  method SendBlock(topk: seq<seq<int>>, sms: nat, sm: nat, sent: seq<Item>, ghost tokens: set<nat>)
    returns (sent': seq<Item>, ghost tokens': set<nat>)
    requires sm < sms && forall t :: 0 <= t < |topk| ==> |topk[t]| <= DATA_WARPS
    requires SentFor(topk, sent, tokens) && Schedule(tokens, |topk|, sms, sm, 0)
    ensures SentFor(topk, sent', tokens') && Schedule(tokens', |topk|, sms, sm + 1, 0)
  {
    sent', tokens' := sent, tokens;
    var t := sm;
    ScheduleStart(tokens', |topk|, sms, sm);
    while t < |topk|
      invariant t % sms == sm && SentFor(topk, sent', tokens') && Schedule(tokens', |topk|, sms, sm, t)
      decreases |topk| - t
    {
      ScheduleNext(tokens', |topk|, sms, sm, t);
      sent' := SendToken(topk, t, sent', tokens');
      tokens' := tokens' + {t};
      t := t + sms;
    }
    ScheduleEnd(tokens', |topk|, sms, sm, t);
  }

  /** All blocks, in any number: every used entry of the table is sent, each exactly once, so the messages for
      expert e are as many as the scan counted. */
  method SendAll(topk: seq<seq<int>>, sms: nat) returns (sent: seq<Item>)
    requires sms > 0 && forall t :: 0 <= t < |topk| ==> |topk[t]| <= 31
    ensures NoRepeats(sent)
    ensures forall it :: it in sent <==> it.Tok? && EntryAt(topk, it.t, it.j) >= 0
    ensures forall e: nat :: Addressed(topk, sent, e) == TableTasks(topk, e)
  {
    sent := [];
    ghost var tokens: set<nat> := {};
    for sm := 0 to sms
      invariant SentFor(topk, sent, tokens) && Schedule(tokens, |topk|, sms, sm, 0)
    {
      sent, tokens := SendBlock(topk, sms, sm, sent, tokens);
    }
    ScheduleAll(tokens, |topk|, sms);
  }

  /** The messages for expert e. */
  function Addressed(topk: seq<seq<int>>, sent: seq<Item>, e: nat): set<Item>
  {
    set it | it in sent && it.Tok? && EntryAt(topk, it.t, it.j) == e
  }
}
