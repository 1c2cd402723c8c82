/** The rank-count table and what the evaluator asks of it and of the suits:
    the ranks that occur a given number of times, the highest five-rank run
    (the straight), and the flush suit. */
module RankTables {
  import opened Cards
  import opened Selection

  /** How many of the cards have rank `r`. */
  function RankCount(cs: seq<Card>, r: int): nat
  {
    if cs == [] then 0 else (if cs[0].rank == r then 1 else 0) + RankCount(cs[1..], r)
  }

  /** The count is the length of the comprehension that picks that rank. */
  lemma {:induction false} RankCountIsFilter(cs: seq<Card>, r: int)
    ensures RankCount(cs, r) == |Filter(cs, RankIs(r))|
  {
    if cs != [] {
      RankCountIsFilter(cs[1..], r);
    }
  }

  function CountsFrom(cs: seq<Card>, r: int): (t: seq<int>)
    requires 0 <= r <= 13
    decreases 13 - r
    ensures |t| == 13 - r
    ensures forall i :: 0 <= i < |t| ==> t[i] == RankCount(cs, r + i)
  {
    if r == 13 then [] else [RankCount(cs, r)] + CountsFrom(cs, r + 1)
  }

  /** `rank_counts` once every card has been counted, indexed by rank. */
  function RankTable(cs: seq<Card>): (t: seq<int>)
    ensures |t| == 13
    ensures forall r :: 0 <= r < 13 ==> t[r] == RankCount(cs, r)
  {
    CountsFrom(cs, 0)
  }

  /** How many of the cards have suit `s` (`suits.count(suit)`). */
  function SuitCount(cs: seq<Card>, s: int): nat
  {
    if cs == [] then 0 else (if cs[0].suit == s then 1 else 0) + SuitCount(cs[1..], s)
  }

  lemma {:induction false} SuitCountIsFilter(cs: seq<Card>, s: int)
    ensures SuitCount(cs, s) == |Filter(cs, SuitIs(s))|
  {
    if cs != [] {
      SuitCountIsFilter(cs[1..], s);
    }
  }

  // ----- ranks by count -----

  function RanksWithCountFrom(counts: seq<int>, n: int, r: int): (rs: seq<int>)
    requires |counts| == 13 && 0 <= r <= 13
    decreases 13 - r
    ensures forall i, j :: 0 <= i < j < |rs| ==> rs[i] < rs[j]
    ensures forall x :: x in rs <==> r <= x < 13 && counts[x] == n
  {
    if r == 13 then []
    else
      var rest := RanksWithCountFrom(counts, n, r + 1);
      assert forall i :: 0 <= i < |rest| ==> rest[i] in rest;
      (if counts[r] == n then [r] else []) + rest
  }

  /** `[rank for rank, count in rank_counts.items() if count == n]`: the ranks
      that occur exactly `n` times, in increasing order. */
  function RanksWithCount(counts: seq<int>, n: int): (rs: seq<int>)
    requires |counts| == 13
    ensures forall i, j :: 0 <= i < j < |rs| ==> rs[i] < rs[j]
    ensures forall x :: x in rs <==> 0 <= x < 13 && counts[x] == n
    ensures forall i :: 0 <= i < |rs| ==> 0 <= rs[i] < 13 && counts[rs[i]] == n
  {
    var rs := RanksWithCountFrom(counts, n, 0);
    assert forall i :: 0 <= i < |rs| ==> rs[i] in rs;
    rs
  }

  /** No rank is listed exactly when no rank is held that many times. */
  lemma NoneHeld(counts: seq<int>, n: int)
    requires |counts| == 13
    ensures RanksWithCount(counts, n) == [] <==> forall x :: 0 <= x < 13 ==> counts[x] != n
  {
    var rs := RanksWithCount(counts, n);
    if rs != [] {
      assert rs[0] in rs;
    }
  }

  function HighestTripsFrom(counts: seq<int>, r: int): (t: Option<int>)
    requires |counts| == 13 && -1 <= r < 13
    decreases r + 1
    ensures t.Some? ==> 0 <= t.value <= r && counts[t.value] == 3
    ensures t.Some? ==> forall j :: t.value < j <= r ==> counts[j] != 3
    ensures t.None? <==> forall j :: 0 <= j <= r ==> counts[j] != 3
  {
    if r < 0 then None
    else if counts[r] == 3 then Some(r)
    else HighestTripsFrom(counts, r - 1)
  }

  /** What the `three_kind` loop leaves behind: the highest rank that occurs
      exactly three times, if any. */
  function HighestTrips(counts: seq<int>): (t: Option<int>)
    requires |counts| == 13
    ensures t.Some? ==> 0 <= t.value < 13 && counts[t.value] == 3
    ensures t.Some? ==> forall r :: t.value < r < 13 ==> counts[r] != 3
    ensures t.None? <==> forall r :: 0 <= r < 13 ==> counts[r] != 3
  {
    HighestTripsFrom(counts, 12)
  }

  // ----- straights -----

  /** All five ranks `lo` .. `lo + 4` occur. */
  predicate RunAt(counts: seq<int>, lo: int)
    requires |counts| == 13 && 0 <= lo <= 8
  {
    forall r :: lo <= r < lo + 5 ==> counts[r] > 0
  }

  function TopRunFrom(counts: seq<int>, lo: int): (w: Option<int>)
    requires |counts| == 13 && -1 <= lo <= 8
    decreases lo + 1
    ensures w.Some? ==> 0 <= w.value <= lo && RunAt(counts, w.value)
    ensures w.Some? ==> forall j :: w.value < j <= lo ==> !RunAt(counts, j)
    ensures w.None? ==> forall j :: 0 <= j <= lo ==> !RunAt(counts, j)
  {
    if lo < 0 then None
    else if RunAt(counts, lo) then Some(lo)
    else TopRunFrom(counts, lo - 1)
  }

  /** The lowest rank of the highest run of five consecutive ranks, if any.
      Runs start at rank index 0 (the 2) at the lowest, so the Ace only ever
      ends a run at the top. */
  function TopRun(counts: seq<int>): (w: Option<int>)
    requires |counts| == 13
    ensures w.Some? ==> 0 <= w.value <= 8 && RunAt(counts, w.value)
    ensures w.Some? ==> forall j :: w.value < j <= 8 ==> !RunAt(counts, j)
    ensures w.None? <==> forall j :: 0 <= j <= 8 ==> !RunAt(counts, j)
  {
    TopRunFrom(counts, 8)
  }

  /** A-2-3-4-5 is not a straight: with exactly those ranks present, no run exists. */
  lemma WheelIsNoStraight(counts: seq<int>)
    requires |counts| == 13
    requires forall r :: 0 <= r < 13 ==> (counts[r] > 0 <==> r < 4 || r == ACE)
    ensures TopRun(counts) == None
  {
    forall j | 0 <= j <= 8 ensures !RunAt(counts, j) {
      var gap := if j <= 4 then 4 else j;
      assert j <= gap < j + 5 && !(counts[gap] > 0);
    }
  }

  /** The ranks of a run occupy at least one card each. */
  lemma {:induction false} RunWidth(cs: seq<Card>, lo: int, hi: int)
    requires forall r :: lo <= r <= hi ==> RankCount(cs, r) > 0
    decreases hi - lo
    ensures |Filter(cs, RankBetween(lo, hi))| >= hi - lo + 1
  {
    if lo <= hi {
      RunWidth(cs, lo, hi - 1);
      assert RankCount(cs, hi) > 0;
      RankCountIsFilter(cs, hi);
      FilterDisjointUnion(cs, RankBetween(lo, hi - 1), RankIs(hi), RankBetween(lo, hi));
    }
  }

  // ----- flushes -----

  function FlushSuitFrom(cs: seq<Card>, s: int): (f: Option<Suit>)
    requires 0 <= s <= 4
    decreases 4 - s
    ensures f.Some? ==> s <= f.value && SuitCount(cs, f.value) >= 5
    ensures f.Some? ==> forall t :: s <= t < f.value ==> SuitCount(cs, t) < 5
    ensures f.None? ==> forall t :: s <= t < 4 ==> SuitCount(cs, t) < 5
  {
    if s == 4 then None
    else if SuitCount(cs, s) >= 5 then Some(s)
    else FlushSuitFrom(cs, s + 1)
  }

  /** `flush_suit`: the first suit, in table order, held by at least five cards. */
  function FirstFlushSuit(cs: seq<Card>): (f: Option<Suit>)
    ensures f.Some? ==> SuitCount(cs, f.value) >= 5
    ensures f.Some? ==> forall t :: 0 <= t < f.value ==> SuitCount(cs, t) < 5
    ensures f.None? <==> forall t :: 0 <= t < 4 ==> SuitCount(cs, t) < 5
  {
    FlushSuitFrom(cs, 0)
  }

  /** Seven cards cannot hold two flush suits, so "the first one found" is the only one. */
  lemma AtMostOneFlushSuit(cs: seq<Card>, s: Suit, t: Suit)
    requires |cs| == 7 && s != t
    ensures !(SuitCount(cs, s) >= 5 && SuitCount(cs, t) >= 5)
  {
    SuitCountIsFilter(cs, s);
    SuitCountIsFilter(cs, t);
    FilterOverlap(cs, SuitIs(s), SuitIs(t));
    FilterMembers(cs, SuitIs(s));
    FilterKeepsNone(Filter(cs, SuitIs(s)), SuitIs(t));
  }

  // ----- pairs -----

  /** Excluding the ranks of pairs leaves two cards fewer per pair. */
  lemma {:induction false} PairsExcludedLength(cs: seq<Card>, ps: seq<int>)
    requires forall i, j :: 0 <= i < j < |ps| ==> ps[i] != ps[j]
    requires forall i :: 0 <= i < |ps| ==> RankCount(cs, ps[i]) == 2
    ensures |Filter(cs, NotExcluded(RankList(ps)))| + 2 * |ps| == |cs|
  {
    if ps == [] {
      FilterKeepsAll(cs, NotExcluded(RankList(ps)));
    } else {
      assert forall i :: 0 <= i < |ps[1..]| ==> ps[1..][i] == ps[i + 1];
      PairsExcludedLength(cs, ps[1..]);
      assert forall r :: r in ps <==> r == ps[0] || r in ps[1..];
      assert ps[0] !in ps[1..];
      RankCountIsFilter(cs, ps[0]);
      FilterDisjointUnion(cs, RankIs(ps[0]), NotExcluded(RankList(ps)), NotExcluded(RankList(ps[1..])));
    }
  }
}
