/** `evaluate_hand` as the source runs it: sort the seven cards, run the
    scanning loops, then try the categories from the top and return from the
    first that applies. */
module Hand {
  import opened Cards
  import opened Selection
  import opened RankTables
  import opened Categories
  import opened Evaluation
  import opened Scans

  method EvaluateHand(hand: seq<Card>, community: seq<Card>) returns (v: HandValue)
    requires |hand| == 2 && |community| == 5
    ensures v == Evaluate(hand, community)
  {
    var all := Ascending(hand + community);
    v := EvaluateSorted(all);
  }

  /** The body of `evaluate_hand` after the sort. */
  method EvaluateSorted(all: seq<Card>) returns (v: HandValue)
    requires |all| == 7
    ensures v == Classify(all)
  {
    var counts := CountRanks(all);
    var flush := FindFlushSuit(all);
    var isStraight, lastRank := ScanForStraight(counts);
    ghost var t := Tabulate(all);
    ClassifyBuild(all, t);
    FoundIsTabulate(all, t, counts, flush, isStraight, lastRank);
    v := Climb(all, t, counts, flush, isStraight, lastRank);
  }

  /** The loops' findings are the survey of the cards. */
  lemma FoundIsTabulate(all: seq<Card>, t: Survey, counts: seq<int>, flush: Option<Suit>, isStraight: bool,
                        lastRank: Option<int>)
    requires t == Tabulate(all) && counts == RankTable(all) && flush == FirstFlushSuit(all)
    requires isStraight <==> TopRun(counts).Some?
    requires isStraight ==> lastRank == TopRun(counts)
    ensures Findings(t, counts, flush, isStraight, lastRank)
  {
  }

  /** What the scanning loops leave behind, entry by entry of the survey. */
  ghost predicate Findings(t: Survey, counts: seq<int>, flush: Option<Suit>, isStraight: bool, lastRank: Option<int>)
  {
    && |counts| == 13 && (isStraight ==> lastRank.Some?)
    && t.flush == flush && t.run == (if isStraight then lastRank else None)
    && t.quads == RanksWithCount(counts, 4) && t.trips == HighestTrips(counts)
    && t.pairs == RanksWithCount(counts, 2)
  }

  /** From the loops' findings to the hand's value: the branch that fires is
      chosen step by step, and its tuple is the branch's expression. The
      straight's branch builds its set of ranks with its own loop. */
  method Climb(all: seq<Card>, ghost t: Survey, counts: seq<int>, flush: Option<Suit>, isStraight: bool,
               lastRank: Option<int>) returns (v: HandValue)
    requires |all| == 7 && Findings(t, counts, flush, isStraight, lastRank)
    requires Applies(all, Ladder(t))
    ensures v == Build(all, Ladder(t))
  {
    var rule := UpperRungs(t, counts, flush, isStraight, lastRank);
    if rule.StraightRule? {
      var unique := CollectRunRanks(all, rule.low);
      BuildStraight(all, rule.low, unique);
      v := StraightValue(all, rule.low, unique);
    } else {
      v := Build(all, rule);
    }
  }

  /** The tests of `evaluate_hand`, top down: straight flush, four of a kind
      and full house, then the rest. */
  method UpperRungs(ghost t: Survey, counts: seq<int>, flush: Option<Suit>, isStraight: bool, lastRank: Option<int>)
    returns (rule: Rule)
    requires Findings(t, counts, flush, isStraight, lastRank)
    ensures rule == Ladder(t)
  {
    if flush.Some? && isStraight {
      return StraightFlushRule(flush.value, lastRank.value);
    }

    var quads := FindQuads(counts);
    if quads.Some? {
      return QuadsRule(quads.value);
    }

    var threeKind := FindThreeOfAKind(counts);
    if threeKind.Some? {
      var pairs := RanksWithCount(counts, 2);
      if pairs != [] {
        return FullHouseRule(threeKind.value, pairs[0]);
      }
    }
    rule := LowerRungs(t, counts, flush, isStraight, lastRank, threeKind);
  }

  /** The tests below the full house: flush, straight and three of a kind. */
  method LowerRungs(ghost t: Survey, counts: seq<int>, flush: Option<Suit>, isStraight: bool, lastRank: Option<int>,
                    threeKind: Option<int>) returns (rule: Rule)
    requires |counts| == 13 && (isStraight ==> lastRank.Some?)
    requires t.flush == flush && t.run == (if isStraight then lastRank else None)
    requires t.trips == threeKind && t.pairs == RanksWithCount(counts, 2)
    requires !(t.flush.Some? && t.run.Some?) && t.quads == [] && !(t.trips.Some? && t.pairs != [])
    ensures rule == Ladder(t)
  {
    if flush.Some? {
      return FlushRule(flush.value);
    }
    if isStraight {
      return StraightRule(lastRank.value);
    }
    if threeKind.Some? {
      return TripsRule(threeKind.value);
    }
    var pairs := Reverse(RanksWithCount(counts, 2));
    rule := PairRungs(t, pairs);
  }

  /** The last tests: two pair, one pair, and the high card when no rank is
      paired. */
  method PairRungs(ghost t: Survey, pairs: seq<int>) returns (rule: Rule)
    requires t.flush.None? && t.run.None? && t.quads == [] && t.trips.None?
    requires pairs == Reverse(t.pairs)
    ensures rule == Ladder(t)
  {
    if |pairs| >= 2 {
      return TwoPairRule(pairs);
    }
    if |pairs| == 1 {
      return OnePairRule(pairs[0]);
    }
    return HighCardRule;
  }
}
