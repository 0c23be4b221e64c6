/** How a local expert packs what its sources sent, when a source may time out: each source waits for its signal
    word, then takes a range of rows; the ranges tile the packed rows in whatever order the sources are served. */
module PackedRanges {
  import Arith

  // ---- the 64-bit pair ----

  const W32: int := 0x1_0000_0000

  predicate IsInt32(x: int) { 0 - 0x8000_0000 <= x < 0x8000_0000 }

  predicate IsInt64(x: int) { 0 - 0x8000_0000_0000_0000 <= x < 0x8000_0000_0000_0000 }

  /** The signed value of the `bits`-wide pattern u, where half is 2^(bits - 1). */
  function Signed(u: nat, half: nat): int
  {
    if u < half then u else u - 2 * half
  }

  /** pack2: x in the low half, y in the high half, read as a signed 64-bit integer. */
  function Pack2(x: int, y: int): int
  {
    Signed(x % W32 + (y % W32) * W32, 0x8000_0000_0000_0000)
  }

  function Unpack2(packed: int): (int, int)
  {
    var u := packed % (W32 * W32);
    (Signed(u % W32, 0x8000_0000), Signed(u / W32, 0x8000_0000))
  }

  /** The pair that combine unpacks is the pair that dispatch packed. */
  lemma {:induction false} PackRoundTrip(x: int, y: int)
    requires IsInt32(x) && IsInt32(y)
    ensures IsInt64(Pack2(x, y)) && Unpack2(Pack2(x, y)) == (x, y)
    ensures (Pack2(x, y) - x) % 0x1_0000_0000 == 0
  {
    var lo, hi := x % W32, y % W32;
    var u := lo + hi * W32;
    assert u / W32 == hi && u % W32 == lo;
    assert Pack2(x, y) % (W32 * W32) == u;
  }

  // ---- waiting for one source ----

  /** One look at the signal word: its value, whether the wait has expired, whether the source is marked active. */
  datatype Look = Look(word: int, expired: bool, active: bool)

  datatype Option<T> = None | Some(value: T)

  /** The wait goes on: no signal yet, and the source is still taken to be alive. */
  predicate KeepsWaiting(look: Look) { look.word == 0 && !look.expired && look.active }

  /** The look that ends the wait, or the number of looks if none does. */
  function Decisive(looks: seq<Look>): (i: nat)
    ensures i <= |looks| && (i < |looks| ==> !KeepsWaiting(looks[i]))
    ensures forall j :: 0 <= j < i ==> KeepsWaiting(looks[j])
  {
    if looks == [] || !KeepsWaiting(looks[0]) then 0
    else
      assert forall j :: 1 <= j < |looks| ==> looks[j] == looks[1..][j - 1];
      1 + Decisive(looks[1..])
  }

  predicate Ended(looks: seq<Look>) { Decisive(looks) < |looks| }

  /** The source was given up: the wait ended without a signal. */
  predicate GivenUp(looks: seq<Look>)
  {
    Ended(looks) && looks[Decisive(looks)].word == 0
  }

  /** Look i ends the wait: it shows a signal, an expiry or an inactive source, and none before it does. */
  predicate FirstEnd(looks: seq<Look>, i: nat)
  {
    && i < |looks| && (looks[i].word != 0 || looks[i].expired || !looks[i].active)
    && (forall j :: 0 <= j < i ==> looks[j].word == 0 && !looks[j].expired && looks[j].active)
  }

  /** The number of rows that a wait ends with: the one published, or 0 for a source that was given up. */
  function CountOf(looks: seq<Look>): int
  {
    if GivenUp(looks) || !Ended(looks) then 0 else 0 - looks[Decisive(looks)].word - 1
  }

  /** The answer of a wait, said on what its first decisive look shows. */
  lemma {:induction false} AnswerOf(looks: seq<Look>)
    ensures forall i: nat :: FirstEnd(looks, i) ==> Ended(looks) && Decisive(looks) == i
    ensures Ended(looks) ==> FirstEnd(looks, Decisive(looks))
    ensures forall i: nat :: FirstEnd(looks, i) && looks[i].word != 0 ==> CountOf(looks) == 0 - looks[i].word - 1
    ensures forall i: nat :: FirstEnd(looks, i) && looks[i].word == 0 ==> CountOf(looks) == 0
  {
    forall i: nat | FirstEnd(looks, i)
      ensures Ended(looks) && Decisive(looks) == i
    {
      var d := Decisive(looks);
      assert !KeepsWaiting(looks[i]);
      assert forall j :: 0 <= j < i ==> KeepsWaiting(looks[j]);
    }
  }

  /** The wait of one source; `clear` marks it inactive. */
  method Await(looks: seq<Look>) returns (count: Option<int>, clear: bool)
    ensures count == if Ended(looks) then Some(CountOf(looks)) else None
    ensures clear <==> GivenUp(looks) && looks[Decisive(looks)].expired
    ensures (forall i: nat :: !FirstEnd(looks, i)) ==> count.None? && !clear
    ensures forall i: nat :: FirstEnd(looks, i) && looks[i].word != 0 ==> count == Some(0 - looks[i].word - 1) && !clear
    ensures forall i: nat :: FirstEnd(looks, i) && looks[i].word == 0 ==> count == Some(0) && clear == looks[i].expired
  {
    AnswerOf(looks);
    var i := 0;
    clear := false;
    count := None;
    while i < |looks|
      invariant 0 <= i <= |looks| && !clear && count.None?
      invariant forall j :: 0 <= j < i ==> KeepsWaiting(looks[j])
    {
      var n := looks[i].word;
      if n != 0 {
        return Some(0 - n - 1), false;
      }
      if looks[i].expired {
        clear := true;
      }
      if clear || !looks[i].active {
        n := -1;
        return Some(0 - n - 1), clear;
      }
      i := i + 1;
    }
  }

  // ---- packing ----

  datatype Range = Range(count: nat, begin: nat)

  predicate Covers(range: Range, row: nat)
  {
    range.begin <= row < range.begin + range.count
  }

  /** The ranges lie below total, do not meet, and leave no row out. */
  ghost predicate Tiles(ranges: map<nat, Range>, total: nat)
  {
    && (forall src :: src in ranges ==> ranges[src].begin + ranges[src].count <= total)
    && (forall a, b, row: nat ::
          a in ranges && b in ranges && Covers(ranges[a], row) && Covers(ranges[b], row) ==> a == b)
    && (forall row: nat :: row < total ==> Owned(ranges, row))
  }

  ghost predicate Owned(ranges: map<nat, Range>, row: nat)
  {
    exists src :: src in ranges && Covers(ranges[src], row)
  }

  lemma {:induction false} TilesNext(ranges: map<nat, Range>, total: nat, src: nat, count: nat)
    requires Tiles(ranges, total) && src !in ranges
    ensures Tiles(ranges[src := Range(count, total)], total + count)
  {
    var ranges' := ranges[src := Range(count, total)];
    forall row: nat | row < total + count
      ensures Owned(ranges', row)
    {
      if row < total {
        assert Owned(ranges, row);
        var s :| s in ranges && Covers(ranges[s], row);
        assert s in ranges' && Covers(ranges'[s], row);
      } else {
        assert Covers(ranges'[src], row);
      }
    }
  }

  /** What the sources below n that are in `served` have sent together. */
  function SumOf(counts: seq<nat>, served: set<nat>, n: nat): nat
    requires n <= |counts|
  {
    if n == 0 then 0 else SumOf(counts, served, n - 1) + if n - 1 in served then counts[n - 1] else 0
  }

  lemma {:induction false} SumNext(counts: seq<nat>, served: set<nat>, src: nat, n: nat)
    requires n <= |counts| && src < |counts| && src !in served
    ensures SumOf(counts, served + {src}, n) == SumOf(counts, served, n) + if src < n then counts[src] else 0
  {
    if n > 0 {
      SumNext(counts, served, src, n - 1);
    }
  }

  lemma {:induction false} SumBound(counts: seq<nat>, served: set<nat>, n: nat, most: nat)
    requires n <= |counts| && forall i :: 0 <= i < |counts| ==> counts[i] <= most
    ensures SumOf(counts, served, n) <= n * most
  {
    if n > 0 {
      SumBound(counts, served, n - 1, most);
      Arith.Distribute(n - 1, 1, most);
    }
  }

  function Total(counts: seq<nat>): nat
  {
    if counts == [] then 0 else Total(counts[..|counts| - 1]) + counts[|counts| - 1]
  }

  lemma {:induction false} SumAll(counts: seq<nat>, served: set<nat>, n: nat)
    requires n <= |counts| && forall i: nat :: i < n ==> i in served
    ensures SumOf(counts, served, n) == Total(counts[..n])
  {
    if n > 0 {
      SumAll(counts, served, n - 1);
      assert counts[..n][..n - 1] == counts[..n - 1];
    }
  }

  lemma {:induction false} SumEmpty(counts: seq<nat>, n: nat)
    requires n <= |counts|
    ensures SumOf(counts, {}, n) == 0
  {
    if n > 0 {
      SumEmpty(counts, n - 1);
    }
  }

  /** The sources in ranges have been served: they hold the rows they sent, and no row is wasted. */
  ghost predicate Served(counts: seq<nat>, ranges: map<nat, Range>, total: nat)
  {
    && (forall src :: src in ranges ==> src < |counts| && ranges[src].count == counts[src])
    && Tiles(ranges, total)
    && total == SumOf(counts, ranges.Keys, |counts|)
  }

  lemma {:induction false} ServedNone(counts: seq<nat>)
    ensures Served(counts, map[], 0)
  {
    SumEmpty(counts, |counts|);
    var none: map<nat, Range> := map[];
    assert none.Keys == {};
  }

  lemma {:induction false} ServedNext(counts: seq<nat>, ranges: map<nat, Range>, total: nat, src: nat, most: nat)
    requires Served(counts, ranges, total) && src !in ranges && src < |counts|
    requires forall i :: 0 <= i < |counts| ==> counts[i] <= most
    ensures Served(counts, ranges[src := Range(counts[src], total)], total + counts[src])
    ensures total <= |counts| * most && counts[src] <= |counts| * most
  {
    SumBound(counts, ranges.Keys, |counts|, most);
    Arith.MulMono(1, |counts|, most);
    SumNext(counts, ranges.Keys, src, |counts|);
    TilesNext(ranges, total, src, counts[src]);
    assert ranges[src := Range(counts[src], total)].Keys == ranges.Keys + {src};
  }

  lemma {:induction false} ServedAll(counts: seq<nat>, ranges: map<nat, Range>, total: nat, most: nat)
    requires Served(counts, ranges, total) && forall src: nat :: src < |counts| ==> src in ranges
    requires forall i :: 0 <= i < |counts| ==> counts[i] <= most
    ensures total == Total(counts) && total <= |counts| * most
  {
    SumBound(counts, ranges.Keys, |counts|, most);
    SumAll(counts, ranges.Keys, |counts|);
    assert counts[..|counts|] == counts;
  }

  lemma {:induction false} NotYet(order: seq<nat>, k: nat)
    requires k < |order| && forall i, j :: 0 <= i < j < |order| ==> order[i] != order[j]
    ensures order[k] !in Elements(order[..k])
    ensures order[..k + 1] == order[..k] + [order[k]] && Elements(order[..k + 1]) == Elements(order[..k]) + {order[k]}
  {
  }

  /** The receive side of one local expert: the row counter and the packed (count, begin) pairs. */
  class Inbox {
    var packedCount: int
    var layout: map<nat, int>

    /** The ranges as combine reads them. */
    function Ranges(): map<nat, (int, int)>
      reads this
    {
      map src | src in layout :: Unpack2(layout[src])
    }

    constructor ()
      ensures packedCount == 0 && layout == map[]
    {
      packedCount := 0;
      layout := map[];
    }

    /** A source that waited takes the next `count` rows. */
    method Pack(src: nat, count: int)
      requires IsInt32(count) && IsInt32(packedCount)
      modifies this
      ensures packedCount == old(packedCount) + count
      ensures Ranges() == old(Ranges())[src := (count, old(packedCount))]
    {
      var begin := packedCount;
      packedCount := packedCount + count;
      layout := layout[src := Pack2(count, begin)];
      PackRoundTrip(count, begin);
    }

    /** The pairs combine reads are these ranges. */
    ghost predicate Reads(ranges: map<nat, Range>)
      reads this
    {
      Ranges() == map src | src in ranges :: (ranges[src].count, ranges[src].begin)
    }

    /** The wait for one more source, and its range. */
    method Serve(src: nat, wait: seq<Look>, ghost counts: seq<nat>, ghost most: nat, ghost ranges: map<nat, Range>)
      returns (ghost ranges': map<nat, Range>, clear: bool)
      requires packedCount >= 0 && Reads(ranges) && Served(counts, ranges, packedCount)
      requires src !in ranges && src < |counts| && Waited(wait, most) && counts[src] == CountOf(wait)
      requires IsInt32(|counts| * most) && forall i :: 0 <= i < |counts| ==> counts[i] <= most
      modifies this
      ensures packedCount >= 0 && Reads(ranges') && Served(counts, ranges', packedCount)
      ensures ranges'.Keys == ranges.Keys + {src} && (clear <==> Expired(wait))
    {
      var count;
      count, clear := Await(wait);
      ServedNext(counts, ranges, packedCount, src, most);
      ranges' := ranges[src := Range(counts[src], packedCount)];
      Pack(src, count.value);
    }

    /** All sources are waited for and served once, in any order; looks[src] is what the wait for src saw. The pairs
        that combine reads tile the packed rows; every source has the rows it published, and none if it was given up;
        the total is the sum; the sources marked inactive are those whose wait expired. */
    method PackAll(order: seq<nat>, looks: seq<seq<Look>>, ghost most: nat)
      returns (ghost ranges: map<nat, Range>, inactive: set<nat>)
      requires packedCount == 0 && layout == map[]
      requires OnceEach(order, |looks|) && AllWaited(looks, most) && IsInt32(|looks| * most)
      modifies this
      ensures Reads(ranges) && forall src: nat :: src in ranges <==> src < |looks|
      ensures forall src: nat :: src in ranges ==> Answers(looks[src], ranges[src].count)
      ensures packedCount == Total(Counts(looks, most)) <= |looks| * most && Tiles(ranges, packedCount)
      ensures forall src: nat :: src in inactive <==> src < |looks| && Expired(looks[src])
    {
      ServedNone(Counts(looks, most));
      ranges, inactive := ServeAll(order, looks, most);
      assert order[..|order|] == order;
      ServedAll(Counts(looks, most), ranges, packedCount, most);
      forall src: nat | src in ranges
        ensures Answers(looks[src], ranges[src].count)
      {
        AnswerOf(looks[src]);
      }
    }

    method ServeAll(order: seq<nat>, looks: seq<seq<Look>>, ghost most: nat)
      returns (ghost ranges: map<nat, Range>, inactive: set<nat>)
      requires OnceEach(order, |looks|) && AllWaited(looks, most) && IsInt32(|looks| * most)
      requires packedCount == 0 && layout == map[] && Served(Counts(looks, most), map[], 0)
      modifies this
      ensures Reads(ranges) && ranges.Keys == Elements(order)
      ensures packedCount >= 0 && Served(Counts(looks, most), ranges, packedCount)
      ensures forall src: nat :: src in inactive <==> src in order && src < |looks| && Expired(looks[src])
    {
      ghost var counts := Counts(looks, most);
      ranges, inactive := map[], {};
      for k := 0 to |order|
        invariant Reads(ranges) && ranges.Keys == Elements(order[..k])
        invariant packedCount >= 0 && Served(counts, ranges, packedCount)
        invariant forall src: nat :: src in inactive <==> src in order[..k] && src < |looks| && Expired(looks[src])
      {
        var src := order[k];
        assert src in order;
        NotYet(order, k);
        var clear;
        ranges, clear := Serve(src, looks[src], counts, most, ranges);
        if clear {
          inactive := inactive + {src};
        }
      }
      assert order[..|order|] == order;
    }
  }

  /** A wait that ended on the word -n-1 answers n, and one that ended on the word 0 answers 0. */
  ghost predicate Answers(looks: seq<Look>, count: nat)
  {
    exists i: nat :: FirstEnd(looks, i) &&
      (looks[i].word == 0 - count - 1 || (looks[i].word == 0 && count == 0))
  }

  /** Every source is served once. */
  ghost predicate OnceEach(order: seq<nat>, n: nat)
  {
    && (forall i, j :: 0 <= i < j < |order| ==> order[i] != order[j])
    && (forall src: nat :: src in order <==> src < n)
  }

  predicate AllWaited(looks: seq<seq<Look>>, most: nat)
  {
    forall src: nat :: src < |looks| ==> Waited(looks[src], most)
  }

  function Elements(order: seq<nat>): set<nat> { set src | src in order }

  /** A wait that ended, on a word that is 0 or -n-1 for some count n of at most `most`. */
  predicate Waited(looks: seq<Look>, most: nat)
  {
    Ended(looks) && 0 - most - 1 <= looks[Decisive(looks)].word <= 0
  }

  /** The wait ended by running out of time. */
  predicate Expired(looks: seq<Look>)
  {
    GivenUp(looks) && looks[Decisive(looks)].expired
  }

  lemma {:induction false} WaitedCount(looks: seq<Look>, most: nat)
    requires Waited(looks, most)
    ensures 0 <= CountOf(looks) <= most
  {
  }

  /** What the sources have sent, as their waits ended. */
  function Counts(looks: seq<seq<Look>>, most: nat): (counts: seq<nat>)
    requires AllWaited(looks, most)
    ensures |counts| == |looks|
    ensures forall src: nat :: src < |looks| ==> counts[src] == CountOf(looks[src]) <= most
  {
    if looks == [] then []
    else
      var n := |looks| - 1;
      WaitedCount(looks[n], most);
      Counts(looks[..n], most) + [CountOf(looks[n])]
  }
}
