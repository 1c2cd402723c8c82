/** The value an evaluation returns, and how each category of hand builds its
    tie-break key and its card list from the sorted seven cards. */
module Categories {
  import opened Cards
  import opened Selection
  import opened RankTables

  // The values of `hand_rank_values`.
  const HIGH_CARD := 0
  const ONE_PAIR := 1
  const TWO_PAIR := 2
  const THREE_OF_A_KIND := 3
  const STRAIGHT := 4
  const FLUSH := 5
  const FULL_HOUSE := 6
  const FOUR_OF_A_KIND := 7
  const STRAIGHT_FLUSH := 8
  const ROYAL_FLUSH := 9

  /** The tuple an evaluation returns: the category's value, the integers that
      follow it (the tie-break key; a flush's list of ranks is spread out into
      it), and the card list that ends the tuple. */
  datatype HandValue = HandValue(category: int, key: seq<int>, cards: seq<Card>)

  // ----- straight flush and royal flush -----

  /** Seven cards with five of one suit and five ranks in a row share at least
      three cards between the suit and the run. */
  lemma SuitedRunCards(all: seq<Card>, s: Suit, lo: int)
    requires |all| == 7 && SuitCount(all, s) >= 5
    requires 0 <= lo <= 8 && RunAt(RankTable(all), lo)
    ensures |Filter(Filter(all, SuitIs(s)), RankBetween(lo, lo + 4))| >= 3
  {
    var t := RankTable(all);
    forall r | lo <= r <= lo + 4 ensures RankCount(all, r) > 0 {
      assert t[r] > 0;
    }
    RunWidth(all, lo, lo + 4);
    SuitCountIsFilter(all, s);
    FilterOverlap(all, SuitIs(s), RankBetween(lo, lo + 4));
  }

  /** The suited run cards sorted highest first: at least three of them, and
      exactly the cards of suit `s` within the run. */
  lemma SuitedRunMembers(all: seq<Card>, s: Suit, lo: int, d: seq<Card>)
    requires |all| == 7 && SuitCount(all, s) >= 5
    requires 0 <= lo <= 8 && RunAt(RankTable(all), lo)
    requires multiset(d) == multiset(Filter(Filter(all, SuitIs(s)), RankBetween(lo, lo + 4)))
    ensures |d| >= 3
    ensures forall c :: c in d <==> c in all && c.suit == s && lo <= c.rank <= lo + 4
  {
    var inRun := Filter(Filter(all, SuitIs(s)), RankBetween(lo, lo + 4));
    SuitedRunCards(all, s, lo);
    FilterMembers(all, SuitIs(s));
    FilterMembers(Filter(all, SuitIs(s)), RankBetween(lo, lo + 4));
    assert |multiset(d)| == |d| && |multiset(inRun)| == |inRun|;
    SameMembers(d, inRun);
  }

  /** The first of the suited run cards, highest first, is the flush suit's Ace
      exactly when the run is the top one and that Ace is held. */
  lemma SuitedRunHead(all: seq<Card>, s: Suit, lo: int, d: seq<Card>)
    requires 0 <= lo <= 8 && NonIncreasing(d) && |d| > 0
    requires forall c :: c in d <==> c in all && c.suit == s && lo <= c.rank <= lo + 4
    ensures forall c :: c in d ==> c.rank <= d[0].rank
    ensures d[0].rank == ACE <==> lo == 8 && Card(ACE, s) in all
  {
    HeadIsHighest(d);
    assert d[0] in d;
    if lo == 8 && Card(ACE, s) in all {
      assert Card(ACE, s) in d;
    }
  }

  /** The suited run cards keep every copy `all` holds of each of them. */
  lemma SuitedRunCopies(all: seq<Card>, s: Suit, lo: int)
    ensures forall c :: multiset(Filter(Filter(all, SuitIs(s)), RankBetween(lo, lo + 4)))[c]
               == (if c.suit == s && lo <= c.rank <= lo + 4 then multiset(all)[c] else 0)
  {
    forall c: Card
      ensures multiset(Filter(Filter(all, SuitIs(s)), RankBetween(lo, lo + 4)))[c]
        == (if c.suit == s && lo <= c.rank <= lo + 4 then multiset(all)[c] else 0)
    {
      FilterMultiplicity(all, SuitIs(s), c);
      FilterMultiplicity(Filter(all, SuitIs(s)), RankBetween(lo, lo + 4), c);
    }
  }

  /** The first branch: a flush suit `s` and a straight whose lowest rank is `lo`.
      The cards are the flush-suit cards inside the straight's five ranks, however
      few they are, highest first; the hand is a royal flush exactly when the
      flush suit's Ace is among them. */
  function StraightFlushValue(all: seq<Card>, s: Suit, lo: int): (v: HandValue)
    requires |all| == 7 && SuitCount(all, s) >= 5
    requires 0 <= lo <= 8 && RunAt(RankTable(all), lo)
    ensures v.category == ROYAL_FLUSH || v.category == STRAIGHT_FLUSH
    ensures v.category == ROYAL_FLUSH <==> lo == 8 && Card(ACE, s) in all
    ensures v.category == ROYAL_FLUSH ==> v.key == []
    ensures |v.cards| >= 3 && NonIncreasing(v.cards)
    ensures v.category == STRAIGHT_FLUSH ==> v.key == [v.cards[0].rank]
    ensures forall c :: c in v.cards <==> c in all && c.suit == s && lo <= c.rank <= lo + 4
    ensures forall c :: multiset(v.cards)[c]
               == (if c.suit == s && lo <= c.rank <= lo + 4 then multiset(all)[c] else 0)
    ensures forall c :: c in v.cards ==> c.rank <= v.cards[0].rank
  {
    var sf := DescByRank(Filter(Filter(all, SuitIs(s)), RankBetween(lo, lo + 4)));
    SuitedRunMembers(all, s, lo, sf);
    SuitedRunCopies(all, s, lo);
    SuitedRunHead(all, s, lo, sf);
    if sf[0].rank == ACE then HandValue(ROYAL_FLUSH, [], sf)
    else HandValue(STRAIGHT_FLUSH, [sf[0].rank], sf)
  }

  // ----- four of a kind -----

  /** Excluding the quads' rank leaves three cards; the highest of them outranks
      or ties every card of another rank. */
  lemma QuadsKicker(all: seq<Card>, q: int, kicker: seq<Card>)
    requires |all| == 7 && RankCount(all, q) == 4
    requires IsTopK(kicker, Filter(all, NotExcluded(RankList([q]))), 1)
    ensures |kicker| == 1 && kicker[0] in all && kicker[0].rank != q
    ensures forall c :: c in all && c.rank != q ==> c.rank <= kicker[0].rank
  {
    var pool := Filter(all, NotExcluded(RankList([q])));
    RankCountIsFilter(all, q);
    FilterComplement(all, RankIs(q), NotExcluded(RankList([q])));
    FilterMembers(all, NotExcluded(RankList([q])));
    TopKBound(kicker, pool, 1);
  }

  /** The four cards of rank `q` followed by the single highest card of another rank. */
  function QuadsValue(all: seq<Card>, q: int): (v: HandValue)
    requires |all| == 7 && RankCount(all, q) == 4
    ensures v.category == FOUR_OF_A_KIND && v.key == [q] && |v.cards| == 5
    ensures forall i :: 0 <= i < 4 ==> v.cards[i] in all && v.cards[i].rank == q
    ensures forall c :: c in all && c.rank == q ==> c in v.cards[..4]
    ensures v.cards[4] in all && v.cards[4].rank != q
    ensures forall c :: c in all && c.rank != q ==> c.rank <= v.cards[4].rank
  {
    var quads := Filter(all, RankIs(q));
    var kicker := TopKCards(all, RankList([q]), 1);
    QuadsKicker(all, q, kicker);
    RankCountIsFilter(all, q);
    FilterElements(all, RankIs(q));
    FilterMembers(all, RankIs(q));
    AppendParts(quads, kicker);
    HandValue(FOUR_OF_A_KIND, [q], quads + kicker)
  }

  // ----- full house -----

  /** The three cards of rank `t` followed by the two cards of rank `p`. */
  function FullHouseValue(all: seq<Card>, t: int, p: int): (v: HandValue)
    requires RankCount(all, t) == 3 && RankCount(all, p) == 2
    ensures v.category == FULL_HOUSE && v.key == [t, p] && |v.cards| == 5
    ensures forall i :: 0 <= i < 3 ==> v.cards[i] in all && v.cards[i].rank == t
    ensures forall i :: 3 <= i < 5 ==> v.cards[i] in all && v.cards[i].rank == p
    ensures forall c :: c in all && (c.rank == t || c.rank == p) ==> c in v.cards
  {
    var threes := Take(Filter(all, RankIs(t)), 3);
    var pairCards := Filter(all, RankIs(p));
    RankCountIsFilter(all, t);
    RankCountIsFilter(all, p);
    assert threes == Filter(all, RankIs(t));
    FilterElements(all, RankIs(t));
    FilterElements(all, RankIs(p));
    FilterMembers(all, RankIs(t));
    FilterMembers(all, RankIs(p));
    HandValue(FULL_HOUSE, [t, p], threes + pairCards)
  }

  // ----- flush -----

  /** The five highest cards of suit `s`, keyed by their ranks in that order. */
  function FlushValue(all: seq<Card>, s: Suit): (v: HandValue)
    requires SuitCount(all, s) >= 5
    ensures v.category == FLUSH && |v.cards| == 5 && v.key == RanksOf(v.cards)
    ensures IsTopK(v.cards, Filter(all, SuitIs(s)), 5)
  {
    SuitCountIsFilter(all, s);
    var top := HighestOf(Filter(all, SuitIs(s)), 5);
    HandValue(FLUSH, RanksOf(top), top)
  }

  // ----- straight -----

  /** The set `unique_ranks`: the ranks of the cards, in the order the cards are
      visited, that fall in the run `lo` .. `lo + 4`. */
  function RunRanks(all: seq<Card>, lo: int): (u: set<int>)
    ensures forall r :: r in u ==> lo <= r <= lo + 4
    ensures forall c :: c in all && lo <= c.rank <= lo + 4 ==> c.rank in u
    ensures forall r :: r in u ==> exists c :: c in all && c.rank == r
  {
    if all == [] then {}
    else
      var last := all[|all| - 1];
      assert forall c :: c in all ==> c == last || c in all[..|all| - 1];
      RunRanks(all[..|all| - 1], lo) + (if lo <= last.rank <= lo + 4 then {last.rank} else {})
  }

  /** The cards of a five-rank run sorted highest first: at least five of them,
      and the first has the run's top rank. */
  lemma RunHead(all: seq<Card>, lo: int, d: seq<Card>)
    requires 0 <= lo <= 8 && RunAt(RankTable(all), lo)
    requires NonIncreasing(d) && multiset(d) == multiset(Filter(all, RankBetween(lo, lo + 4)))
    ensures |d| >= 5 && d[0].rank == lo + 4
    ensures forall c :: c in d <==> c in all && lo <= c.rank <= lo + 4
  {
    var chosen := Filter(all, RankBetween(lo, lo + 4));
    var table := RankTable(all);
    forall r | lo <= r <= lo + 4 ensures RankCount(all, r) > 0 {
      assert table[r] > 0;
    }
    RunWidth(all, lo, lo + 4);
    FilterMembers(all, RankBetween(lo, lo + 4));
    FilterMembers(all, RankIs(lo + 4));
    assert |multiset(d)| == |d| && |multiset(chosen)| == |chosen|;
    SameMembers(d, chosen);
    var tops := Filter(all, RankIs(lo + 4));
    RankCountIsFilter(all, lo + 4);
    assert tops[0] in tops;
    assert tops[0] in d;
    HeadIsHighest(d);
    assert d[0] in d;
  }

  /** Picking the cards whose rank is in `unique_ranks` picks the cards of the run. */
  lemma RunRanksPick(all: seq<Card>, lo: int, unique: set<int>)
    requires unique == RunRanks(all, lo)
    ensures Filter(all, RankAmong(unique)) == Filter(all, RankBetween(lo, lo + 4))
  {
    forall c | c in all ensures Matches(RankAmong(unique), c) <==> Matches(RankBetween(lo, lo + 4), c) {
      if lo <= c.rank <= lo + 4 {
        assert c.rank in unique;
      }
    }
    FilterSameOn(all, RankAmong(unique), RankBetween(lo, lo + 4));
  }

  /** The run cards keep every copy `all` holds of each of them. */
  lemma RunCopies(all: seq<Card>, lo: int)
    ensures forall c :: multiset(Filter(all, RankBetween(lo, lo + 4)))[c]
               == (if lo <= c.rank <= lo + 4 then multiset(all)[c] else 0)
  {
    forall c: Card
      ensures multiset(Filter(all, RankBetween(lo, lo + 4)))[c]
        == (if lo <= c.rank <= lo + 4 then multiset(all)[c] else 0)
    {
      FilterMultiplicity(all, RankBetween(lo, lo + 4), c);
    }
  }

  /** Every card whose rank is one of the straight's five ranks, highest first,
      keyed by the straight's top rank. A rank held twice puts both cards in. */
  function StraightValue(all: seq<Card>, lo: int, unique: set<int>): (v: HandValue)
    requires 0 <= lo <= 8 && RunAt(RankTable(all), lo) && unique == RunRanks(all, lo)
    ensures v.category == STRAIGHT && v.key == [lo + 4]
    ensures |v.cards| >= 5 && NonIncreasing(v.cards)
    ensures forall c :: c in v.cards <==> c in all && lo <= c.rank <= lo + 4
    ensures forall c :: multiset(v.cards)[c]
               == (if lo <= c.rank <= lo + 4 then multiset(all)[c] else 0)
  {
    var chosen := Filter(all, RankAmong(unique));
    RunRanksPick(all, lo, unique);
    RunCopies(all, lo);
    var straightCards := DescByRank(chosen);
    RunHead(all, lo, straightCards);
    HandValue(STRAIGHT, [straightCards[0].rank], straightCards)
  }

  // ----- three of a kind -----

  /** The three cards of rank `t` followed by the two highest of ALL seven cards:
      the exclusion list handed to `top_k_cards` holds card objects, which no rank
      equals, so the trips themselves may come back as kickers. */
  function TripsValue(all: seq<Card>, t: int): (v: HandValue)
    requires |all| == 7 && RankCount(all, t) == 3
    ensures v.category == THREE_OF_A_KIND && v.key == [t] && |v.cards| == 5
    ensures forall i :: 0 <= i < 3 ==> v.cards[i] in all && v.cards[i].rank == t
    ensures forall c :: c in all && c.rank == t ==> c in v.cards[..3]
    ensures IsTopK(v.cards[3..], all, 2)
  {
    var trips := Take(Filter(all, RankIs(t)), 3);
    var kickers := TopKCards(all, CardObjects(trips), 2);
    CardObjectsExcludeNothing(all, trips);
    RankCountIsFilter(all, t);
    FilterElements(all, RankIs(t));
    assert trips == Filter(all, RankIs(t));
    FilterMembers(all, RankIs(t));
    AppendParts(trips, kickers);
    HandValue(THREE_OF_A_KIND, [t], trips + kickers)
  }

  // ----- two pair -----

  /** Excluding the ranks of two or more pairs leaves at least one card; the
      highest of them outranks or ties every card whose rank is not a pair's. */
  lemma TwoPairKicker(all: seq<Card>, pairs: seq<int>, kicker: seq<Card>)
    requires |Filter(all, NotExcluded(RankList(pairs)))| >= 1
    requires IsTopK(kicker, Filter(all, NotExcluded(RankList(pairs))), 1)
    ensures |kicker| == 1 && kicker[0] in all && kicker[0].rank !in pairs
    ensures forall c :: c in all && c.rank !in pairs ==> c.rank <= kicker[0].rank
  {
    FilterMembers(all, NotExcluded(RankList(pairs)));
    TopKBound(kicker, Filter(all, NotExcluded(RankList(pairs))), 1);
  }

  /** The first `k` cards a filter keeps come from the list and meet the condition. */
  lemma TakeElements(cs: seq<Card>, p: Pick, k: nat)
    ensures forall i :: 0 <= i < |Take(Filter(cs, p), k)| ==>
      Take(Filter(cs, p), k)[i] in cs && Matches(p, Take(Filter(cs, p), k)[i])
  {
    FilterElements(cs, p);
  }

  /** The first two cards of a rank held twice: both of them, of that rank. */
  lemma PairCards(all: seq<Card>, r: int, two: seq<Card>)
    requires RankCount(all, r) == 2 && two == Take(Filter(all, RankIs(r)), 2)
    ensures |two| == 2 && two[0].rank == two[1].rank == r
    ensures forall c :: c in two ==> c in all
    ensures forall c :: c in all && c.rank == r ==> c in two
  {
    RankCountIsFilter(all, r);
    TakeElements(all, RankIs(r), 2);
    assert two == Filter(all, RankIs(r));
    FilterMembers(all, RankIs(r));
  }

  /** The two pair card list, stated of its three parts. */
  lemma TwoPairLayout(all: seq<Card>, pairs: seq<int>, top: seq<Card>, bottom: seq<Card>, kicker: seq<Card>)
    requires |pairs| >= 2 && |top| == 2 && |bottom| == 2 && |kicker| == 1
    requires top[0].rank == top[1].rank == pairs[0] && bottom[0].rank == bottom[1].rank == pairs[1]
    requires forall c :: c in top ==> c in all
    requires forall c :: c in bottom ==> c in all
    requires kicker[0] in all && kicker[0].rank !in pairs
    requires forall c :: c in all && c.rank !in pairs ==> c.rank <= kicker[0].rank
    ensures |top + bottom + kicker| == 5
    ensures [pairs[0], pairs[1]] + RanksOf(kicker) == [pairs[0], pairs[1], (top + bottom + kicker)[4].rank]
    ensures (top + bottom + kicker)[0].rank == (top + bottom + kicker)[1].rank == pairs[0]
    ensures (top + bottom + kicker)[2].rank == (top + bottom + kicker)[3].rank == pairs[1]
    ensures forall c :: c in top + bottom + kicker ==> c in all
    ensures (top + bottom + kicker)[4].rank !in pairs
    ensures forall c :: c in all && c.rank !in pairs ==> c.rank <= (top + bottom + kicker)[4].rank
  {
    assert RanksOf(kicker) == [kicker[0].rank];
    assert kicker == [kicker[0]];
  }

  /** Every card of either pair rank is among the first four cards. */
  lemma BothPairsHeld(all: seq<Card>, pairs: seq<int>, top: seq<Card>, bottom: seq<Card>, kicker: seq<Card>)
    requires |pairs| >= 2 && |top| == 2 && |bottom| == 2
    requires forall c :: c in all && c.rank == pairs[0] ==> c in top
    requires forall c :: c in all && c.rank == pairs[1] ==> c in bottom
    ensures forall c :: c in all && (c.rank == pairs[0] || c.rank == pairs[1])
               ==> c in (top + bottom + kicker)[..4]
  {
    assert (top + bottom + kicker)[..4] == top + bottom;
  }

  /** The two cards of each of the first two ranks of `pairs`, then the highest
      card whose rank is not in `pairs` at all (a third pair is excluded too). */
  function TwoPairValue(all: seq<Card>, pairs: seq<int>): (v: HandValue)
    requires |pairs| >= 2
    ensures v.category == TWO_PAIR && |v.key| >= 2 && v.key[0] == pairs[0] && v.key[1] == pairs[1]
  {
    var top := Take(Filter(all, RankIs(pairs[0])), 2);
    var bottom := Take(Filter(all, RankIs(pairs[1])), 2);
    var kicker := TopKCards(all, RankList(pairs), 1);
    HandValue(TWO_PAIR, PairsThenKicker(pairs[0], pairs[1], kicker), top + bottom + kicker)
  }

  /** Two pair's key: the two pair ranks, then the kicker's rank. */
  function PairsThenKicker(high: int, low: int, kicker: seq<Card>): (key: seq<int>)
    ensures |key| == 2 + |kicker| && key[0] == high && key[1] == low
  {
    [high, low] + RanksOf(kicker)
  }

  /** Two pair holds two cards of each of the two highest pair ranks and the
      highest card whose rank is not a pair's; the key is the two pair ranks and
      that card's rank. */
  lemma TwoPairShape(all: seq<Card>, pairs: seq<int>)
    requires |all| == 7 && |pairs| >= 2
    requires forall i, j :: 0 <= i < j < |pairs| ==> pairs[i] > pairs[j]
    requires forall i :: 0 <= i < |pairs| ==> RankCount(all, pairs[i]) == 2
    ensures |TwoPairValue(all, pairs).cards| == 5
    ensures TwoPairValue(all, pairs).key == [pairs[0], pairs[1], TwoPairValue(all, pairs).cards[4].rank]
    ensures TwoPairValue(all, pairs).cards[0].rank == TwoPairValue(all, pairs).cards[1].rank == pairs[0]
    ensures TwoPairValue(all, pairs).cards[2].rank == TwoPairValue(all, pairs).cards[3].rank == pairs[1]
    ensures forall c :: c in all && (c.rank == pairs[0] || c.rank == pairs[1])
               ==> c in TwoPairValue(all, pairs).cards[..4]
    ensures forall c :: c in TwoPairValue(all, pairs).cards ==> c in all
    ensures TwoPairValue(all, pairs).cards[4].rank !in pairs
    ensures forall c :: c in all && c.rank !in pairs ==> c.rank <= TwoPairValue(all, pairs).cards[4].rank
  {
    var top := Take(Filter(all, RankIs(pairs[0])), 2);
    var bottom := Take(Filter(all, RankIs(pairs[1])), 2);
    var kicker := TopKCards(all, RankList(pairs), 1);
    PairCards(all, pairs[0], top);
    PairCards(all, pairs[1], bottom);
    PoolAfterPairs(all, pairs);
    TwoPairKicker(all, pairs, kicker);
    TwoPairLayout(all, pairs, top, bottom, kicker);
    BothPairsHeld(all, pairs, top, bottom, kicker);
  }

  /** Excluding two or three pairs' ranks from seven cards leaves at least one. */
  lemma PoolAfterPairs(all: seq<Card>, pairs: seq<int>)
    requires |all| == 7 && |pairs| >= 2
    requires forall i, j :: 0 <= i < j < |pairs| ==> pairs[i] > pairs[j]
    requires forall i :: 0 <= i < |pairs| ==> RankCount(all, pairs[i]) == 2
    ensures |Filter(all, NotExcluded(RankList(pairs)))| >= 1
  {
    PairsExcludedLength(all, pairs);
    assert |pairs| <= 3;
  }

  // ----- one pair -----

  /** The parts one pair is built from: the two cards of the pair and three kickers. */
  lemma OnePairParts(all: seq<Card>, p: int, pairCards: seq<Card>, kickers: seq<Card>)
    requires |all| == 7 && RankCount(all, p) == 2
    requires pairCards == Take(Filter(all, RankIs(p)), 2)
    requires IsTopK(kickers, Filter(all, NotExcluded(RankList([p]))), 3)
    ensures |pairCards + kickers| == 5
    ensures (pairCards + kickers)[0].rank == (pairCards + kickers)[1].rank == p
    ensures forall c :: c in pairCards ==> c in all
    ensures forall c :: c in all && c.rank == p ==> c in pairCards
    ensures (pairCards + kickers)[..2] == pairCards && (pairCards + kickers)[2..] == kickers
  {
    PairsExcludedLength(all, [p]);
    PairCards(all, p, pairCards);
    AppendParts(pairCards, kickers);
  }

  /** The two cards of rank `p`, then the three highest cards of other ranks. */
  function OnePairValue(all: seq<Card>, p: int): (v: HandValue)
    requires |all| == 7 && RankCount(all, p) == 2
    ensures v.category == ONE_PAIR && |v.cards| == 5 && v.key == [p] + RanksOf(v.cards[2..])
    ensures v.cards[0].rank == v.cards[1].rank == p && forall c :: c in v.cards[..2] ==> c in all
    ensures forall c :: c in all && c.rank == p ==> c in v.cards[..2]
    ensures IsTopK(v.cards[2..], Filter(all, NotExcluded(RankList([p]))), 3)
  {
    var pairCards := Take(Filter(all, RankIs(p)), 2);
    var kickers := TopKCards(all, RankList([p]), 3);
    OnePairParts(all, p, pairCards, kickers);
    HandValue(ONE_PAIR, [p] + RanksOf(kickers), pairCards + kickers)
  }

  // ----- high card -----

  /** The five highest cards, keyed by the rank of the last sorted card and then
      by the five cards' ranks. */
  function HighCardValue(all: seq<Card>): (v: HandValue)
    requires |all| == 7
    ensures v.category == HIGH_CARD && |v.cards| == 5
    ensures v.key == [all[6].rank] + RanksOf(v.cards)
    ensures IsTopK(v.cards, all, 5)
  {
    var kickers := TopKCards(all, RankList([]), 5);
    FilterKeepsAll(all, NotExcluded(RankList([])));
    HandValue(HIGH_CARD, [all[|all| - 1].rank] + RanksOf(kickers), kickers)
  }
  /** With the cards in ascending `(rank, suit)` order, the last card is a
      highest one, so the high-card key starts with the top rank twice. */
  lemma HighCardTop(all: seq<Card>)
    requires |all| == 7 && KeySorted(all)
    ensures HighCardValue(all).key[0] == HighCardValue(all).key[1]
    ensures forall c :: c in all ==> c.rank <= HighCardValue(all).key[0]
  {
    var v := HighCardValue(all);
    HighCardKey(all, v.key, v.cards);
  }

  lemma HighCardKey(all: seq<Card>, key: seq<int>, cards: seq<Card>)
    requires |all| == 7 && KeySorted(all)
    requires key == [all[6].rank] + RanksOf(cards) && |cards| == 5 && IsTopK(cards, all, 5)
    ensures key[0] == key[1] && forall c :: c in all ==> c.rank <= key[0]
  {
    LastIsHighest(all);
    TopKHead(cards, all);
    TopKBound(cards, all, 5);
    assert cards[0] in all;
  }

  lemma LastIsHighest(all: seq<Card>)
    requires |all| > 0 && KeySorted(all)
    ensures forall c :: c in all ==> c.rank <= all[|all| - 1].rank
  {
    forall c | c in all ensures c.rank <= all[|all| - 1].rank {
      var i :| 0 <= i < |all| && all[i] == c;
      assert i == |all| - 1 || KeyLeq(all[i], all[|all| - 1]);
    }
  }

  /** The first of the highest cards has the pool's top rank. */
  lemma TopKHead(sel: seq<Card>, pool: seq<Card>)
    requires |sel| > 0 && IsTopK(sel, pool, |sel|)
    ensures forall c :: c in pool ==> c.rank <= sel[0].rank
  {
    forall c | c in pool ensures c.rank <= sel[0].rank {
      if c in sel {
        var i :| 0 <= i < |sel| && sel[i] == c;
        assert i == 0 || sel[0].rank >= sel[i].rank;
      } else {
        assert c in multiset(pool) - multiset(sel);
      }
    }
  }

}
