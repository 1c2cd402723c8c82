/** `evaluate_hand` as a function of the seven cards: the ladder of checks from
    straight flush down to high card, and what it guarantees. The ladder is
    split in two: `Ladder` decides which `return` fires and with which ranks
    and suit, and `Build` assembles that branch's tuple. */
module Evaluation {
  import opened Cards
  import opened Selection
  import opened RankTables
  import opened Categories

  /** `s[::-1]`. */
  function Reverse(s: seq<int>): (r: seq<int>)
    ensures |r| == |s|
    ensures forall i :: 0 <= i < |s| ==> r[i] == s[|s| - 1 - i]
  {
    if s == [] then [] else Reverse(s[1..]) + [s[0]]
  }

  /** The `return` of `evaluate_hand` that fires, with what it was found with. */
  datatype Rule =
    | StraightFlushRule(s: Suit, lo: int)
    | QuadsRule(q: int)
    | FullHouseRule(t: int, p: int)
    | FlushRule(fs: Suit)
    | StraightRule(low: int)
    | TripsRule(trips: int)
    | TwoPairRule(pairs: seq<int>)
    | OnePairRule(pair: int)
    | HighCardRule

  /** What a branch has established about the cards when it fires. */
  predicate Applies(all: seq<Card>, rule: Rule)
  {
    match rule
    case StraightFlushRule(s, lo) => SuitCount(all, s) >= 5 && 0 <= lo <= 8 && RunAt(RankTable(all), lo)
    case QuadsRule(q) => RankCount(all, q) == 4
    case FullHouseRule(t, p) => RankCount(all, t) == 3 && RankCount(all, p) == 2
    case FlushRule(s) => SuitCount(all, s) >= 5
    case StraightRule(lo) => 0 <= lo <= 8 && RunAt(RankTable(all), lo)
    case TripsRule(t) => RankCount(all, t) == 3
    case TwoPairRule(pairs) =>
      && |pairs| >= 2
      && (forall i, j :: 0 <= i < j < |pairs| ==> pairs[i] > pairs[j])
      && (forall i :: 0 <= i < |pairs| ==> RankCount(all, pairs[i]) == 2)
    case OnePairRule(p) => RankCount(all, p) == 2
    case HighCardRule => true
  }

  /** What `evaluate_hand` finds out about the seven cards before its ladder:
      the rank counts, the flush suit, the bottom of the straight, and the ranks
      held four, three and two times. */
  datatype Survey = Survey(
    counts: seq<int>, flush: Option<Suit>, run: Option<int>,
    quads: seq<int>, trips: Option<int>, pairs: seq<int>)

  function Tabulate(all: seq<Card>): (t: Survey)
  {
    var counts := RankTable(all);
    Survey(counts, FirstFlushSuit(all), TopRun(counts),
           RanksWithCount(counts, 4), HighestTrips(counts), RanksWithCount(counts, 2))
  }

  /** The conditions of `evaluate_hand`, tried in order; the first that holds
      decides the branch. */
  function Ladder(t: Survey): (rule: Rule)
    ensures rule.HighCardRule? <==> t.flush.None? && t.run.None? && t.quads == [] && t.trips.None? && t.pairs == []
    ensures rule.TwoPairRule? ==> rule.pairs == Reverse(t.pairs) && |t.pairs| >= 2
  {
    if t.flush.Some? && t.run.Some? then StraightFlushRule(t.flush.value, t.run.value)
    else if t.quads != [] then QuadsRule(t.quads[0])
    else if t.trips.Some? && t.pairs != [] then FullHouseRule(t.trips.value, t.pairs[0])
    else if t.flush.Some? then FlushRule(t.flush.value)
    else if t.run.Some? then StraightRule(t.run.value)
    else if t.trips.Some? then TripsRule(t.trips.value)
    else if |Reverse(t.pairs)| >= 2 then TwoPairRule(Reverse(t.pairs))
    else if |Reverse(t.pairs)| == 1 then OnePairRule(Reverse(t.pairs)[0])
    else HighCardRule
  }

  /** What the survey's entries mean, as far as the ladder's branches rely on it. */
  predicate Sound(all: seq<Card>, t: Survey)
  {
    SoundSuits(all, t) && SoundRanks(t) && SoundPairs(t)
  }

  predicate SoundSuits(all: seq<Card>, t: Survey)
  {
    && t.counts == RankTable(all)
    && (t.flush.Some? ==> SuitCount(all, t.flush.value) >= 5)
  }

  predicate SoundRanks(t: Survey)
  {
    && |t.counts| == 13
    && (t.run.Some? ==> 0 <= t.run.value <= 8 && RunAt(t.counts, t.run.value))
    && (forall i :: 0 <= i < |t.quads| ==> 0 <= t.quads[i] < 13 && t.counts[t.quads[i]] == 4)
    && (t.trips.Some? ==> 0 <= t.trips.value < 13 && t.counts[t.trips.value] == 3)
  }

  predicate SoundPairs(t: Survey)
  {
    && |t.counts| == 13
    && (forall i :: 0 <= i < |t.pairs| ==> 0 <= t.pairs[i] < 13 && t.counts[t.pairs[i]] == 2)
    && (forall i, j :: 0 <= i < j < |t.pairs| ==> t.pairs[i] < t.pairs[j])
  }

  lemma TabulateSound(all: seq<Card>)
    ensures Sound(all, Tabulate(all))
  {
    var t := Tabulate(all);
    assert SoundSuits(all, t);
    TabulateRanks(t.counts, t);
    TabulatePairs(t.counts, t);
  }

  lemma TabulateRanks(counts: seq<int>, t: Survey)
    requires |counts| == 13
    requires t.counts == counts && t.run == TopRun(counts) && t.quads == RanksWithCount(counts, 4)
    requires t.trips == HighestTrips(counts)
    ensures SoundRanks(t)
  {
  }

  lemma TabulatePairs(counts: seq<int>, t: Survey)
    requires |counts| == 13 && t.counts == counts && t.pairs == RanksWithCount(counts, 2)
    ensures SoundPairs(t)
  {
  }

  /** The paired ranks, reversed, run from highest to lowest and each occurs twice. */
  lemma PairsDescending(all: seq<Card>, t: Survey)
    requires Sound(all, t)
    ensures forall i, j :: 0 <= i < j < |Reverse(t.pairs)| ==> Reverse(t.pairs)[i] > Reverse(t.pairs)[j]
    ensures forall i :: 0 <= i < |Reverse(t.pairs)| ==> RankCount(all, Reverse(t.pairs)[i]) == 2
  {
    forall i | 0 <= i < |Reverse(t.pairs)| ensures RankCount(all, Reverse(t.pairs)[i]) == 2 {
      var k := |t.pairs| - 1 - i;
      var r := t.pairs[k];
      assert Reverse(t.pairs)[i] == r && 0 <= r < 13 && t.counts[r] == 2;
      assert RankTable(all)[r] == RankCount(all, r);
    }
  }

  /** An entry of the rank-count table is the count of its rank. */
  lemma CountEntry(all: seq<Card>, counts: seq<int>, r: int, n: int)
    requires counts == RankTable(all) && 0 <= r < 13 && counts[r] == n
    ensures RankCount(all, r) == n
  {
  }

  /** Every branch's builder gets what it needs. */
  lemma LadderApplies(all: seq<Card>, t: Survey)
    requires Sound(all, t)
    ensures Applies(all, Ladder(t))
  {
    if t.flush.Some? || t.run.Some? || t.quads != [] {
      UpperRungsApply(all, t);
    } else if t.trips.Some? {
      TripsRungsApply(all, t);
    } else {
      PairRungsApply(all, t);
    }
  }

  lemma UpperRungsApply(all: seq<Card>, t: Survey)
    requires Sound(all, t) && (t.flush.Some? || t.run.Some? || t.quads != [])
    ensures Applies(all, Ladder(t))
  {
    if t.flush.Some? && t.run.Some? {
      assert Ladder(t) == StraightFlushRule(t.flush.value, t.run.value);
    } else if t.quads != [] {
      assert Ladder(t) == QuadsRule(t.quads[0]);
      CountEntry(all, t.counts, t.quads[0], 4);
    } else if t.trips.Some? && t.pairs != [] {
      TripsRungsApply(all, t);
    } else if t.flush.Some? {
      assert Ladder(t) == FlushRule(t.flush.value);
    } else {
      assert Ladder(t) == StraightRule(t.run.value);
    }
  }

  lemma TripsRungsApply(all: seq<Card>, t: Survey)
    requires Sound(all, t) && t.quads == [] && t.trips.Some?
    requires t.pairs == [] ==> t.flush.None? && t.run.None?
    ensures Applies(all, Ladder(t))
  {
    CountEntry(all, t.counts, t.trips.value, 3);
    if t.pairs != [] && !(t.flush.Some? && t.run.Some?) {
      assert Ladder(t) == FullHouseRule(t.trips.value, t.pairs[0]);
      CountEntry(all, t.counts, t.pairs[0], 2);
    } else if t.pairs == [] {
      assert Ladder(t) == TripsRule(t.trips.value);
    } else {
      assert Ladder(t) == StraightFlushRule(t.flush.value, t.run.value);
    }
  }

  lemma PairRungsApply(all: seq<Card>, t: Survey)
    requires Sound(all, t) && t.flush.None? && t.run.None? && t.quads == [] && t.trips.None?
    ensures Applies(all, Ladder(t))
  {
    PairsDescending(all, t);
    if |t.pairs| >= 2 {
      assert Ladder(t) == TwoPairRule(Reverse(t.pairs));
    } else if |t.pairs| == 1 {
      assert Ladder(t) == OnePairRule(Reverse(t.pairs)[0]);
    } else {
      assert Ladder(t) == HighCardRule;
    }
  }

  /** The tuple the fired branch returns: each branch returns its own rung's
      category, except that the straight flush's may return a royal flush. */
  function Build(all: seq<Card>, rule: Rule): (v: HandValue)
    requires |all| == 7 && Applies(all, rule)
    ensures v.category == RuleTier(rule) || (rule.StraightFlushRule? && v.category == ROYAL_FLUSH)
  {
    if rule.StraightFlushRule? || rule.QuadsRule? || rule.FullHouseRule? || rule.FlushRule? || rule.StraightRule?
    then BuildUpper(all, rule)
    else BuildLower(all, rule)
  }

  /** The branches from straight flush down to straight. */
  function BuildUpper(all: seq<Card>, rule: Rule): (v: HandValue)
    requires |all| == 7 && Applies(all, rule)
    requires rule.StraightFlushRule? || rule.QuadsRule? || rule.FullHouseRule? || rule.FlushRule? || rule.StraightRule?
    ensures v.category == RuleTier(rule) || (rule.StraightFlushRule? && v.category == ROYAL_FLUSH)
  {
    match rule
    case StraightFlushRule(s, lo) => StraightFlushValue(all, s, lo)
    case QuadsRule(q) => QuadsValue(all, q)
    case FullHouseRule(t, p) => FullHouseValue(all, t, p)
    case FlushRule(s) => FlushValue(all, s)
    case StraightRule(lo) => StraightValue(all, lo, RunRanks(all, lo))
  }

  /** The branches from three of a kind down to high card. */
  function BuildLower(all: seq<Card>, rule: Rule): (v: HandValue)
    requires |all| == 7 && Applies(all, rule)
    requires !(rule.StraightFlushRule? || rule.QuadsRule? || rule.FullHouseRule? || rule.FlushRule? || rule.StraightRule?)
    ensures v.category == RuleTier(rule)
  {
    match rule
    case TripsRule(t) => TripsValue(all, t)
    case TwoPairRule(pairs) => TwoPairValue(all, pairs)
    case OnePairRule(p) => OnePairValue(all, p)
    case HighCardRule => HighCardValue(all)
  }

  /** The ladder applied to the seven cards sorted by `(rank, suit)`. */
  function Classify(all: seq<Card>): (v: HandValue)
    requires |all| == 7
    ensures HIGH_CARD <= v.category <= ROYAL_FLUSH
  {
    TabulateSound(all);
    LadderApplies(all, Tabulate(all));
    Build(all, Ladder(Tabulate(all)))
  }

  /** The classification is the ladder's branch built on the cards' survey. */
  lemma ClassifyBuild(all: seq<Card>, t: Survey)
    requires |all| == 7 && t == Tabulate(all)
    ensures Applies(all, Ladder(t)) && Classify(all) == Build(all, Ladder(t))
  {
    TabulateSound(all);
    LadderApplies(all, t);
  }

  /** The straight's branch, with its set of ranks found by other means. */
  lemma BuildStraight(all: seq<Card>, lo: int, unique: set<int>)
    requires |all| == 7 && Applies(all, StraightRule(lo)) && unique == RunRanks(all, lo)
    ensures 0 <= lo <= 8 && RunAt(RankTable(all), lo)
    ensures Build(all, StraightRule(lo)) == StraightValue(all, lo, unique)
  {
  }

  /** `evaluate_hand(hand, community_cards)`. */
  function Evaluate(hand: seq<Card>, community: seq<Card>): (v: HandValue)
    requires |hand| == 2 && |community| == 5
    ensures HIGH_CARD <= v.category <= ROYAL_FLUSH
  {
    Classify(Ascending(hand + community))
  }

  // ----- the ladder as a first match -----

  /** Some suit is held by five or more of the cards. */
  predicate HasFlush(all: seq<Card>)
  {
    exists s :: 0 <= s < 4 && SuitCount(all, s) >= 5
  }

  /** The five consecutive ranks from `lo` up all occur. */
  predicate FiveInARow(all: seq<Card>, lo: int)
  {
    forall r :: lo <= r <= lo + 4 ==> RankCount(all, r) > 0
  }

  /** Some five consecutive ranks, the lowest from 2 to 10, all occur. */
  predicate HasStraight(all: seq<Card>)
  {
    exists lo :: 0 <= lo <= 8 && FiveInARow(all, lo)
  }

  /** Some rank occurs exactly `n` times. */
  predicate HeldTimes(all: seq<Card>, n: int)
  {
    exists r :: 0 <= r < 13 && RankCount(all, r) == n
  }

  function PairedRanksFrom(all: seq<Card>, r: int): nat
    requires 0 <= r <= 13
    decreases 13 - r
  {
    if r == 13 then 0 else (if RankCount(all, r) == 2 then 1 else 0) + PairedRanksFrom(all, r + 1)
  }

  /** How many ranks occur exactly twice. */
  function PairedRanks(all: seq<Card>): nat
  {
    PairedRanksFrom(all, 0)
  }

  /** The condition of each rung, numbered by the category it returns: straight
      flush 8 (royal flush shares its rung), four of a kind 7, full house 6,
      flush 5, straight 4, three of a kind 3, two pair 2, one pair 1, high card 0. */
  predicate Qualifies(all: seq<Card>, tier: int)
  {
    if tier == STRAIGHT_FLUSH then HasFlush(all) && HasStraight(all)
    else if tier == FOUR_OF_A_KIND then HeldTimes(all, 4)
    else if tier == FULL_HOUSE then HeldTimes(all, 3) && HeldTimes(all, 2)
    else if tier == FLUSH then HasFlush(all)
    else if tier == STRAIGHT then HasStraight(all)
    else if tier == THREE_OF_A_KIND then HeldTimes(all, 3)
    else if tier == TWO_PAIR then PairedRanks(all) >= 2
    else if tier == ONE_PAIR then PairedRanks(all) == 1
    else tier == HIGH_CARD
  }

  /** The rung a branch sits on. */
  function RuleTier(rule: Rule): int
  {
    match rule
    case StraightFlushRule(_, _) => STRAIGHT_FLUSH
    case QuadsRule(_) => FOUR_OF_A_KIND
    case FullHouseRule(_, _) => FULL_HOUSE
    case FlushRule(_) => FLUSH
    case StraightRule(_) => STRAIGHT
    case TripsRule(_) => THREE_OF_A_KIND
    case TwoPairRule(_) => TWO_PAIR
    case OnePairRule(_) => ONE_PAIR
    case HighCardRule => HIGH_CARD
  }

  /** What each entry of the survey says about the hand. */
  predicate Means(all: seq<Card>, t: Survey)
  {
    && (t.flush.Some? <==> HasFlush(all))
    && (t.run.Some? <==> HasStraight(all))
    && (t.quads != [] <==> HeldTimes(all, 4))
    && (t.trips.Some? <==> HeldTimes(all, 3))
    && (t.pairs != [] <==> HeldTimes(all, 2))
    && |t.pairs| == PairedRanks(all)
  }

  lemma FlushMeans(all: seq<Card>, t: Survey)
    requires t.flush == FirstFlushSuit(all)
    ensures t.flush.Some? <==> HasFlush(all)
  {
    if HasFlush(all) {
      var s :| 0 <= s < 4 && SuitCount(all, s) >= 5;
      assert t.flush.Some?;
    }
  }

  lemma StraightMeans(all: seq<Card>, t: Survey)
    requires t.counts == RankTable(all) && t.run == TopRun(t.counts)
    ensures t.run.Some? <==> HasStraight(all)
  {
    if HasStraight(all) {
      var lo :| 0 <= lo <= 8 && FiveInARow(all, lo);
      forall r | lo <= r < lo + 5 ensures t.counts[r] > 0 {
        assert t.counts[r] == RankCount(all, r);
      }
      assert RunAt(t.counts, lo);
    }
    if t.run.Some? {
      var lo := t.run.value;
      forall r | lo <= r <= lo + 4 ensures RankCount(all, r) > 0 {
        assert t.counts[r] == RankCount(all, r);
      }
      assert 0 <= lo <= 8 && FiveInARow(all, lo);
    }
  }

  lemma CountedMeans(all: seq<Card>, counts: seq<int>, rs: seq<int>, n: int)
    requires counts == RankTable(all) && rs == RanksWithCount(counts, n)
    ensures rs != [] <==> HeldTimes(all, n)
  {
    if HeldTimes(all, n) {
      var r :| 0 <= r < 13 && RankCount(all, r) == n;
      assert r in rs;
    }
    if rs != [] {
      assert rs[0] in rs;
    }
  }

  lemma TripsMeans(all: seq<Card>, t: Survey)
    requires t.counts == RankTable(all) && t.trips == HighestTrips(t.counts)
    ensures t.trips.Some? <==> HeldTimes(all, 3)
  {
    if HeldTimes(all, 3) {
      var r :| 0 <= r < 13 && RankCount(all, r) == 3;
      assert t.counts[r] == 3;
    }
  }

  lemma {:induction false} PairedRanksCountFrom(all: seq<Card>, counts: seq<int>, r: int)
    requires counts == RankTable(all) && 0 <= r <= 13
    decreases 13 - r
    ensures |RanksWithCountFrom(counts, 2, r)| == PairedRanksFrom(all, r)
  {
    if r < 13 {
      PairedRanksCountFrom(all, counts, r + 1);
      assert counts[r] == RankCount(all, r);
    }
  }
  lemma PairedRanksCount(all: seq<Card>, counts: seq<int>)
    requires counts == RankTable(all)
    ensures |RanksWithCount(counts, 2)| == PairedRanks(all)
  {
    PairedRanksCountFrom(all, counts, 0);
  }

  lemma TabulateMeans(all: seq<Card>)
    ensures Means(all, Tabulate(all))
  {
    SurveyMeans(all, Tabulate(all));
  }

  lemma SurveyMeans(all: seq<Card>, t: Survey)
    requires t.counts == RankTable(all) && t.flush == FirstFlushSuit(all)
    requires t.run == TopRun(t.counts) && t.trips == HighestTrips(t.counts)
    requires t.quads == RanksWithCount(t.counts, 4) && t.pairs == RanksWithCount(t.counts, 2)
    ensures Means(all, t)
  {
    FlushMeans(all, t);
    StraightMeans(all, t);
    CountedMeans(all, t.counts, t.quads, 4);
    CountedMeans(all, t.counts, t.pairs, 2);
    TripsMeans(all, t);
    PairedRanksCount(all, t.counts);
  }

  /** The ladder returns from the first rung, top down, whose condition holds:
      that rung's condition holds and no higher rung's does. Every hand reaches
      a rung, since high card always qualifies. */
  lemma LadderFirstMatch(all: seq<Card>, t: Survey)
    requires Means(all, t)
    ensures Qualifies(all, RuleTier(Ladder(t)))
    ensures forall k :: RuleTier(Ladder(t)) < k <= STRAIGHT_FLUSH ==> !Qualifies(all, k)
  {
  }

  // ----- which ranks the branches pick -----

  /** Where a rung could pick among several ranks, which one the survey holds:
      the highest straight, the highest three-of-a-kind rank, and every pair. */
  predicate Picks(all: seq<Card>, t: Survey)
  {
    && (t.run.Some? ==> forall j :: t.run.value < j <= 8 ==> !FiveInARow(all, j))
    && (t.trips.Some? ==> forall r :: t.trips.value < r < 13 ==> RankCount(all, r) != 3)
    && (forall r :: 0 <= r < 13 && RankCount(all, r) == 2 ==> r in t.pairs)
  }

  lemma TabulatePicks(all: seq<Card>)
    ensures Picks(all, Tabulate(all))
  {
    SurveyPicks(all, Tabulate(all));
  }

  lemma SurveyPicks(all: seq<Card>, t: Survey)
    requires t.counts == RankTable(all) && t.run == TopRun(t.counts)
    requires t.trips == HighestTrips(t.counts) && t.pairs == RanksWithCount(t.counts, 2)
    ensures Picks(all, t)
  {
    HighestRunPicked(all, t.counts, t.run);
    forall r | 0 <= r < 13 && RankCount(all, r) == 2 ensures r in t.pairs {
      assert t.counts[r] == 2;
    }
  }

  lemma HighestRunPicked(all: seq<Card>, counts: seq<int>, run: Option<int>)
    requires counts == RankTable(all) && run == TopRun(counts)
    ensures run.Some? ==> forall j :: run.value < j <= 8 ==> !FiveInARow(all, j)
  {
    if run.Some? {
      forall j | run.value < j <= 8 ensures !FiveInARow(all, j) {
        assert !RunAt(counts, j);
        var r :| j <= r < j + 5 && !(counts[r] > 0);
        assert RankCount(all, r) == counts[r];
      }
    }
  }

  /** The full house is keyed by the highest rank held three times and, as
      written, the lowest rank held twice. */
  lemma FullHouseChoice(all: seq<Card>, t: Survey)
    requires Sound(all, t) && Picks(all, t) && Ladder(t).FullHouseRule?
    ensures RankCount(all, Ladder(t).t) == 3
    ensures forall r :: Ladder(t).t < r < 13 ==> RankCount(all, r) != 3
    ensures RankCount(all, Ladder(t).p) == 2
    ensures forall r :: 0 <= r < Ladder(t).p ==> RankCount(all, r) != 2
  {
    assert t.trips.Some? && t.pairs != [] && Ladder(t) == FullHouseRule(t.trips.value, t.pairs[0]);
    CountEntry(all, t.counts, t.trips.value, 3);
    CountEntry(all, t.counts, t.pairs[0], 2);
    forall r | 0 <= r < t.pairs[0] ensures RankCount(all, r) != 2 {
      forall i | 0 <= i < |t.pairs| ensures t.pairs[i] != r {
        if i > 0 {
          assert t.pairs[0] < t.pairs[i];
        }
      }
      assert r !in t.pairs;
    }
  }

  /** The straight and the straight flush both take the highest run of five
      ranks among all seven cards, whatever their suits. */
  lemma RunChoice(all: seq<Card>, t: Survey)
    requires Sound(all, t) && Picks(all, t)
    requires Ladder(t).StraightRule? || Ladder(t).StraightFlushRule?
    ensures var lo := if Ladder(t).StraightRule? then Ladder(t).low else Ladder(t).lo;
      && 0 <= lo <= 8 && FiveInARow(all, lo)
      && forall j :: lo < j <= 8 ==> !FiveInARow(all, j)
  {
    assert t.run.Some?;
    var lo := t.run.value;
    assert Ladder(t) == StraightRule(lo) || Ladder(t) == StraightFlushRule(t.flush.value, lo);
    forall r | lo <= r <= lo + 4 ensures RankCount(all, r) > 0 {
      assert t.counts[r] == RankCount(all, r);
    }
  }

  // ----- the category returned -----

  /** The category `evaluate_hand` returns is the highest one whose condition
      the seven cards meet (royal flush counting as a straight flush). */
  lemma ClassifyTier(all: seq<Card>)
    requires |all| == 7
    ensures FirstRung(all, Classify(all).category)
  {
    var t := Tabulate(all);
    TabulateSound(all);
    TabulateMeans(all);
    LadderApplies(all, t);
    var v := Build(all, Ladder(t));
    assert Classify(all) == v;
    ValueTier(all, t, v.category);
  }

  lemma ValueTier(all: seq<Card>, t: Survey, category: int)
    requires Means(all, t)
    requires category == RuleTier(Ladder(t)) || (Ladder(t).StraightFlushRule? && category == ROYAL_FLUSH)
    ensures FirstRung(all, category)
  {
    LadderFirstMatch(all, t);
  }

  /** `category` sits on the highest rung whose condition the cards meet
      (royal flush on the straight flush's rung). */
  predicate FirstRung(all: seq<Card>, category: int)
  {
    var tier := if category == ROYAL_FLUSH then STRAIGHT_FLUSH else category;
    && Qualifies(all, tier)
    && forall k :: tier < k <= STRAIGHT_FLUSH ==> !Qualifies(all, k)
  }

  /** A full house from `evaluate_hand` is keyed by the highest rank held three
      times and the lowest rank held twice. */
  lemma ClassifyFullHouse(all: seq<Card>)
    requires |all| == 7 && Classify(all).category == FULL_HOUSE
    ensures |Classify(all).key| == 2
    ensures RankCount(all, Classify(all).key[0]) == 3
    ensures forall r :: Classify(all).key[0] < r < 13 ==> RankCount(all, r) != 3
    ensures RankCount(all, Classify(all).key[1]) == 2
    ensures forall r :: 0 <= r < Classify(all).key[1] ==> RankCount(all, r) != 2
  {
    var t := Tabulate(all);
    TabulateSound(all);
    TabulatePicks(all);
    LadderApplies(all, t);
    var v := Build(all, Ladder(t));
    assert Classify(all) == v;
    assert Ladder(t).FullHouseRule?;
    FullHouseChoice(all, t);
  }

  /** A two-pair key: the two highest ranks held twice, then the rank of the
      highest card outside every pair. */
  predicate TwoPairKeyed(all: seq<Card>, key: seq<int>)
  {
    && |key| == 3 && key[0] > key[1]
    && RankCount(all, key[0]) == 2 && RankCount(all, key[1]) == 2
    && (forall r :: 0 <= r < 13 && RankCount(all, r) == 2 ==> r == key[0] || r <= key[1])
    && RankCount(all, key[2]) != 2 && RankCount(all, key[2]) > 0
    && (forall c :: c in all && RankCount(all, c.rank) != 2 ==> c.rank <= key[2])
  }

  /** Two pair from `evaluate_hand` is keyed by the two highest ranks held
      twice, then by the rank of the highest card outside every pair. */
  lemma ClassifyTwoPair(all: seq<Card>)
    requires |all| == 7 && Classify(all).category == TWO_PAIR
    ensures TwoPairKeyed(all, Classify(all).key)
  {
    var t := Tabulate(all);
    TabulateSound(all);
    TabulatePicks(all);
    LadderApplies(all, t);
    var v := Build(all, Ladder(t));
    assert Classify(all) == v;
    assert Ladder(t).TwoPairRule?;
    TwoPairBuilt(all, t, v);
  }

  lemma TwoPairBuilt(all: seq<Card>, t: Survey, v: HandValue)
    requires |all| == 7 && Sound(all, t) && Picks(all, t) && |t.pairs| >= 2
    requires v == TwoPairValue(all, Reverse(t.pairs))
    ensures TwoPairKeyed(all, v.key)
  {
    SurveyPairList(all, t);
    TwoPairKey(all, Reverse(t.pairs), v);
  }

  /** `ps` lists every rank held twice, and only those, from highest to lowest. */
  predicate PairList(all: seq<Card>, ps: seq<int>)
  {
    && (forall i, j :: 0 <= i < j < |ps| ==> ps[i] > ps[j])
    && (forall i :: 0 <= i < |ps| ==> RankCount(all, ps[i]) == 2)
    && (forall r :: 0 <= r < 13 && RankCount(all, r) == 2 ==> r in ps)
  }

  lemma SurveyPairList(all: seq<Card>, t: Survey)
    requires Sound(all, t) && Picks(all, t)
    ensures PairList(all, Reverse(t.pairs))
  {
    PairsDescending(all, t);
    PairedAreListed(all, t);
  }

  lemma TwoPairKey(all: seq<Card>, ps: seq<int>, v: HandValue)
    requires |all| == 7 && |ps| >= 2 && PairList(all, ps)
    requires v == TwoPairValue(all, ps)
    ensures TwoPairKeyed(all, v.key)
  {
    TwoPairShape(all, ps);
    forall r | 0 <= r < 13 && RankCount(all, r) == 2 ensures r == ps[0] || r <= ps[1] {
      var i :| 0 <= i < |ps| && ps[i] == r;
      assert i == 0 || i == 1 || ps[1] > ps[i];
    }
    forall c | c in all && RankCount(all, c.rank) != 2 ensures c.rank <= v.key[2] {
      forall i | 0 <= i < |ps| ensures ps[i] != c.rank {
        assert RankCount(all, ps[i]) == 2;
      }
      assert c.rank !in ps;
    }
    assert v.key[2] !in ps;
    HeldRank(all, v.cards[4]);
  }

  /** A card among the seven makes its rank's count positive. */
  lemma HeldRank(all: seq<Card>, c: Card)
    requires c in all
    ensures RankCount(all, c.rank) > 0
  {
    RankCountIsFilter(all, c.rank);
    FilterMembers(all, RankIs(c.rank));
    assert c in Filter(all, RankIs(c.rank));
  }

  /** Every rank held twice is among the two-pair branch's pairs. */
  lemma PairedAreListed(all: seq<Card>, t: Survey)
    requires Sound(all, t) && Picks(all, t)
    ensures forall r :: 0 <= r < 13 && RankCount(all, r) == 2 ==> r in Reverse(t.pairs)
  {
    forall r | 0 <= r < 13 && RankCount(all, r) == 2 ensures r in Reverse(t.pairs) {
      var i :| 0 <= i < |t.pairs| && t.pairs[i] == r;
      assert Reverse(t.pairs)[|t.pairs| - 1 - i] == r;
    }
  }

  // ----- the order of the seven cards does not matter -----

  /** Rearranging the cards changes no rank count and no suit count. */
  lemma SameCardsSameCounts(a: seq<Card>, b: seq<Card>)
    requires multiset(a) == multiset(b)
    ensures forall r :: RankCount(a, r) == RankCount(b, r)
    ensures forall s :: SuitCount(a, s) == SuitCount(b, s)
  {
    forall r ensures RankCount(a, r) == RankCount(b, r) {
      RankCountIsFilter(a, r);
      RankCountIsFilter(b, r);
      FilterPermutation(a, b, RankIs(r));
    }
    forall s ensures SuitCount(a, s) == SuitCount(b, s) {
      SuitCountIsFilter(a, s);
      SuitCountIsFilter(b, s);
      FilterPermutation(a, b, SuitIs(s));
    }
  }

  lemma {:induction false} PairedRanksAgree(a: seq<Card>, b: seq<Card>, r: int)
    requires 0 <= r <= 13
    requires forall x :: RankCount(a, x) == RankCount(b, x)
    ensures PairedRanksFrom(a, r) == PairedRanksFrom(b, r)
    decreases 13 - r
  {
    if r < 13 {
      PairedRanksAgree(a, b, r + 1);
    }
  }

  lemma HasFlushAgree(a: seq<Card>, b: seq<Card>)
    requires forall s :: SuitCount(a, s) == SuitCount(b, s)
    ensures HasFlush(a) ==> HasFlush(b)
  {
    if HasFlush(a) {
      var s :| 0 <= s < 4 && SuitCount(a, s) >= 5;
      assert SuitCount(b, s) >= 5;
    }
  }

  lemma HasStraightAgree(a: seq<Card>, b: seq<Card>)
    requires forall r :: RankCount(a, r) == RankCount(b, r)
    ensures HasStraight(a) ==> HasStraight(b)
  {
    if HasStraight(a) {
      var lo :| 0 <= lo <= 8 && FiveInARow(a, lo);
      assert FiveInARow(b, lo);
    }
  }

  lemma HeldTimesAgree(a: seq<Card>, b: seq<Card>, n: int)
    requires forall r :: RankCount(a, r) == RankCount(b, r)
    ensures HeldTimes(a, n) ==> HeldTimes(b, n)
  {
    if HeldTimes(a, n) {
      var r :| 0 <= r < 13 && RankCount(a, r) == n;
      assert RankCount(b, r) == n;
    }
  }

  lemma PairedRanksSame(a: seq<Card>, b: seq<Card>)
    requires forall r :: RankCount(a, r) == RankCount(b, r)
    ensures PairedRanks(a) == PairedRanks(b)
  {
    PairedRanksAgree(a, b, 0);
  }

  /** Whether a rung's condition holds does not depend on the order of the cards. */
  lemma QualifiesAgree(a: seq<Card>, b: seq<Card>, tier: int)
    requires forall r :: RankCount(a, r) == RankCount(b, r)
    requires forall s :: SuitCount(a, s) == SuitCount(b, s)
    ensures Qualifies(a, tier) <==> Qualifies(b, tier)
  {
    PairedRanksSame(a, b);
    HasFlushAgree(a, b);
    HasFlushAgree(b, a);
    HasStraightAgree(a, b);
    HasStraightAgree(b, a);
    HeldTimesAgree(a, b, 4);
    HeldTimesAgree(b, a, 4);
    HeldTimesAgree(a, b, 3);
    HeldTimesAgree(b, a, 3);
    HeldTimesAgree(a, b, 2);
    HeldTimesAgree(b, a, 2);
  }

  lemma FirstRungAgree(a: seq<Card>, b: seq<Card>, category: int)
    requires multiset(a) == multiset(b) && FirstRung(a, category)
    ensures FirstRung(b, category)
  {
    SameCardsSameCounts(a, b);
    forall k ensures Qualifies(a, k) <==> Qualifies(b, k) {
      QualifiesAgree(a, b, k);
    }
  }

  /** `evaluate_hand` returns the category of the first rung, from the straight
      flush down, whose condition the two hole cards and five community cards
      meet together, in whatever order they come. */
  lemma EvaluateTier(hand: seq<Card>, community: seq<Card>)
    requires |hand| == 2 && |community| == 5
    ensures FirstRung(hand + community, Evaluate(hand, community).category)
  {
    var all := Ascending(hand + community);
    ClassifyTier(all);
    FirstRungAgree(all, hand + community, Classify(all).category);
  }
}
