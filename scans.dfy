/** The loops of `evaluate_hand` that build up what it knows one step at a
    time: the rank counts, the flush suit, the straight scan, the four- and
    three-of-a-kind searches and the set of a straight's ranks. Each is proved
    to compute the function that specifies it. */
module Scans {
  import opened Cards
  import opened RankTables
  import opened Categories

  /** Counting one more card adds one to the count of its rank. */
  lemma {:induction false} RankCountSnoc(cs: seq<Card>, c: Card, r: int)
    ensures RankCount(cs + [c], r) == RankCount(cs, r) + (if c.rank == r then 1 else 0)
  {
    if cs == [] {
      assert cs + [c] == [c];
      assert [c][1..] == [];
    } else {
      assert (cs + [c])[1..] == cs[1..] + [c];
      RankCountSnoc(cs[1..], c, r);
    }
  }

  /** The `rank_counts` loop: every rank starts at zero and each card adds one
      to its own rank. */
  method CountRanks(all: seq<Card>) returns (counts: seq<int>)
    ensures counts == RankTable(all)
  {
    counts := seq(13, _ => 0);
    var i := 0;
    while i < |all|
      invariant 0 <= i <= |all|
      invariant |counts| == 13
      invariant forall r :: 0 <= r < 13 ==> counts[r] == RankCount(all[..i], r)
    {
      var c := all[i];
      assert all[..i + 1] == all[..i] + [c];
      forall r | 0 <= r < 13 {
        RankCountSnoc(all[..i], c, r);
      }
      counts := counts[c.rank := counts[c.rank] + 1];
      i := i + 1;
    }
    assert all[..|all|] == all;
  }

  /** The flush search: the suits in table order, stopping at the first one
      that five or more of the cards have. */
  method FindFlushSuit(all: seq<Card>) returns (flush: Option<Suit>)
    ensures flush == FirstFlushSuit(all)
  {
    flush := None;
    var s := 0;
    while s < 4
      invariant 0 <= s <= 4 && flush == None
      invariant forall u :: 0 <= u < s ==> SuitCount(all, u) < 5
    {
      if SuitCount(all, s) >= 5 {
        flush := Some(s);
        break;
      }
      s := s + 1;
    }
  }

  /** The straight scan: from the Ace down, count the present ranks that
      follow on from the last present rank, restart at one after a gap, and stop
      as soon as five follow on. `last_rank` is a rank name, so the test on it
      only asks whether a rank has been seen yet. */
  method ScanForStraight(counts: seq<int>) returns (isStraight: bool, lastRank: Option<int>)
    requires |counts| == 13
    ensures isStraight <==> TopRun(counts).Some?
    ensures isStraight ==> lastRank == TopRun(counts)
  {
    var consecutive := 0;
    lastRank := None;
    var r := 12;
    while r >= 0
      invariant -1 <= r <= 12 && 0 <= consecutive < 5
      invariant lastRank.None? <==> consecutive == 0
      invariant lastRank.None? ==> forall k :: r < k < 13 ==> !(counts[k] > 0)
      invariant lastRank.Some? ==> r < lastRank.value && lastRank.value + consecutive <= 13
      invariant lastRank.Some? ==> forall k :: r < k < lastRank.value ==> !(counts[k] > 0)
      invariant lastRank.Some? ==> forall k :: lastRank.value <= k < lastRank.value + consecutive ==> counts[k] > 0
      invariant lastRank.Some? && lastRank.value + consecutive < 13 ==> !(counts[lastRank.value + consecutive] > 0)
      invariant forall j :: r < j <= 8 ==> !RunAt(counts, j)
    {
      if counts[r] > 0 {
        if lastRank.Some? && lastRank.value - r == 1 {
          consecutive := consecutive + 1;
        } else {
          assert r == 12 || !(counts[r + 1] > 0);
          consecutive := 1;
        }
        lastRank := Some(r);
      }
      if consecutive == 5 {
        break;
      }
      if r <= 8 {
        assert !(counts[r] > 0 && counts[r + 1] > 0 && counts[r + 2] > 0 && counts[r + 3] > 0 && counts[r + 4] > 0);
      }
      r := r - 1;
    }
    isStraight := consecutive >= 5;
    if isStraight {
      TopRunIs(counts, r);
    }
  }

  /** A run with no run above it is the one `TopRun` finds. */
  lemma TopRunIs(counts: seq<int>, lo: int)
    requires |counts| == 13 && 0 <= lo <= 8 && RunAt(counts, lo)
    requires forall j :: lo < j <= 8 ==> !RunAt(counts, j)
    ensures TopRun(counts) == Some(lo)
  {
  }

  /** The `three_kind` loop: every rank held three times overwrites the last,
      so the highest one is left. */
  method FindThreeOfAKind(counts: seq<int>) returns (threeKind: Option<int>)
    requires |counts| == 13
    ensures threeKind == HighestTrips(counts)
  {
    threeKind := None;
    var r := 0;
    while r < 13
      invariant 0 <= r <= 13
      invariant threeKind.Some? ==> 0 <= threeKind.value < r && counts[threeKind.value] == 3
      invariant threeKind.Some? ==> forall k :: threeKind.value < k < r ==> counts[k] != 3
      invariant threeKind.None? ==> forall k :: 0 <= k < r ==> counts[k] != 3
    {
      if counts[r] == 3 {
        threeKind := Some(r);
      }
      r := r + 1;
    }
  }

  /** The four-of-a-kind loop: the ranks in table order, stopping at the first
      one held four times. */
  method FindQuads(counts: seq<int>) returns (quads: Option<int>)
    requires |counts| == 13
    ensures quads.None? <==> RanksWithCount(counts, 4) == []
    ensures quads.Some? ==> quads.value == RanksWithCount(counts, 4)[0]
  {
    quads := None;
    var r := 0;
    while r < 13
      invariant 0 <= r <= 13 && quads == None
      invariant forall k :: 0 <= k < r ==> counts[k] != 4
    {
      if counts[r] == 4 {
        quads := Some(r);
        break;
      }
      r := r + 1;
    }
    var rs := RanksWithCount(counts, 4);
    if quads.Some? {
      assert quads.value in rs;
      var i :| 0 <= i < |rs| && rs[i] == quads.value;
      assert rs[0] <= rs[i] && counts[rs[0]] == 4;
    } else {
      NoneHeld(counts, 4);
    }
  }

  /** The `unique_ranks` loop: the rank of every card inside the run, added to
      a set as the cards are visited. */
  method CollectRunRanks(all: seq<Card>, lo: int) returns (unique: set<int>)
    ensures unique == RunRanks(all, lo)
  {
    unique := {};
    var i := 0;
    while i < |all|
      invariant 0 <= i <= |all|
      invariant unique == RunRanks(all[..i], lo)
    {
      var c := all[i];
      if lo <= c.rank <= lo + 4 {
        unique := unique + {c.rank};
      }
      assert all[..i + 1][..i] == all[..i];
      i := i + 1;
    }
    assert all[..|all|] == all;
  }
}
