# blitz.py hand evaluator, modelled in Dafny

`blitz.py` is a terminal quiz. It deals two Texas Hold'em hands and a five-card
board, and the player guesses who wins. The program checks the guess with
`evaluate_hand`. That function takes the two hole cards and the five community
cards and returns a tuple: a category from 0 (high card) to 9 (royal flush),
then tie-break integers, then the chosen cards. `main` compares two such tuples
the way Python compares tuples. This project models that evaluator and that
comparison, and proves what they compute.

Layout, one module per file:

- `cards.dfy` (`Cards`): the `RANKS` and `SUITS` tables. A rank is its index
  into `RANKS` (0 = "2" … 12 = "A") and a suit is its index into `SUITS`.
  `Card.__lt__` and `Card.__gt__` compare ranks only. The sort key
  `(rank, suit)` orders suits by the code point of their symbol.
- `selection.dfy` (`Selection`): the comprehensions, modelled as one `Filter`
  over a `Pick` condition.
  - The sort of line 38 (`Ascending`).
  - Python's stable `sorted(key=rank, reverse=True)` (`DescByRank`).
  - Slicing (`Take`).
  - The inner function `top_k_cards` (`TopKCards`), with its exclusion list as
    written: a list of ranks, or a list of `Card` objects that never equals a
    rank.
- `tables.dfy` (`RankTables`): the specification functions of the counting
  steps.
  - The rank-count table and the suit counts.
  - The ranks held exactly `n` times, in `RANKS` order.
  - The highest rank held three times.
  - The highest run of five present ranks (Ace high only).
  - The first suit in `SUITS` order held five times.
- `categories.dfy` (`Categories`): `HandValue(category, key, cards)`. It holds
  one builder per branch of the ladder, each stated as the source computes it.
- `evaluation.dfy` (`Evaluation`): the pure specification of `evaluate_hand`.
  - `Tabulate` gathers what the function knows before its ladder.
  - `Ladder` is the first-match chain of tests.
  - `Build` computes the chosen branch's tuple.
  - `Classify` / `Evaluate` put these together.
  - The lemmas relate the result to conditions stated directly on the cards.
- `scans.dfy` (`Scans`): the loops of `evaluate_hand`. Each is a method proved
  to compute the specification function it mirrors: the rank counts, the flush
  search, the straight scan, the four- and three-of-a-kind searches, and the
  straight's set of ranks.
- `hand.dfy` (`Hand`): `evaluate_hand` as a method. It sorts, runs the loops,
  then takes the tests top down. It is proved equal to `Evaluate`.
- `showdown.dfy` (`Showdown`): the comparison in `main`. Tuples are compared
  lexicographically, a proper prefix is smaller, and the answer "1", "2" or
  "t" counts as correct.

The model follows the program as written, including these behaviours:

- The straight flush does not check that five cards of the flush suit lie in
  the straight's window.
- The full house needs counts of exactly 3 and exactly 2, and it takes the
  lowest pair.
- Four of a kind is keyed by the quad rank alone.
- Three of a kind passes `Card` objects as excluded ranks, so its kickers are
  the top two of all seven cards. Its key has no kicker ranks.
- Two pair's kicker excludes every paired rank.
- The straight's card list holds every card in the window, so it can be longer
  than five.
- The high-card key repeats the top rank before the five ranks.
- `A-2-3-4-5` is not a straight.

## Model

| member | source | states |
|---|---|---|
| Cards.RankOnlyComparison | blitz.py:19-25 | `<` and `>` on cards are converse strict orders on rank indices; two cards are unordered exactly when their ranks are equal, whatever their suits |
| Cards.SymbolTables | blitz.py:6-7 | the rank and suit tables list distinct symbols, so a rank or suit is determined by its index; `RANKS` runs from "2" to "A" |
| Cards.SymbolOrder | blitz.py:6 | by code point the suit symbols order as ♠ < ♣ < ♥ < ♦, i.e. `SUITS` indices 0, 1, 3, 2 |
| Selection.Filter | blitz.py:107 | a comprehension over the cards never yields more cards than the list holds |
| Selection.FilterMembers | blitz.py:97 | a comprehension keeps exactly the cards of the list that meet its condition |
| Selection.FilterMultiplicity | blitz.py:107 | a comprehension keeps every card meeting its condition as often as the list holds it, and no other card |
| Selection.FilterPermutation | blitz.py:115 | reordering the list does not change what a comprehension selects, up to order |
| Selection.Ascending | blitz.py:38 | `sorted(..., key=(rank, suit))` returns the same cards, ordered by rank index and then suit symbol |
| Selection.DescByRank | blitz.py:46 | `sorted(..., key=rank, reverse=True)` returns the same cards with ranks non-increasing |
| Selection.DescByRankStable | blitz.py:46 | the sort is stable: for every rank, the cards of that rank come out in their order in the input |
| Selection.Take | blitz.py:134 | slicing `[:k]` gives the first `min(k, n)` elements of the list |
| Selection.HighestOf | blitz.py:115 | sorting by rank descending and slicing `[:k]` gives `min(k, n)` cards of the pool, non-increasing, each at least as high as every card left out |
| Selection.TopKCards | blitz.py:45-46 | `top_k_cards(excluded, k)` returns the `k` highest cards whose rank the exclusion list does not hold |
| Selection.CardObjectsExcludeNothing | blitz.py:128 | a list of `Card` objects passed as excluded ranks excludes no card |
| RankTables.RankTable | blitz.py:39-42 | the table has thirteen entries, and entry `r` is the number of cards of rank `r` |
| RankTables.RankCountIsFilter | blitz.py:41-42 | counting a rank card by card gives the size of the comprehension of that rank |
| RankTables.SuitCountIsFilter | blitz.py:49-52 | `suits.count(s)` is the size of the comprehension of that suit |
| RankTables.RanksWithCount | blitz.py:108 | the ranks with count exactly `n`, strictly increasing, containing every such rank and no other |
| RankTables.NoneHeld | blitz.py:95-96 | no rank is listed exactly when no rank has count `n` |
| RankTables.HighestTrips | blitz.py:101-104 | the result has count 3 and no higher rank has count 3; it is None exactly when no rank has count 3 |
| RankTables.TopRun | blitz.py:57-70 | the result starts a run of five present ranks and no higher start does; it is None exactly when no start 0..8 has one |
| RankTables.WheelIsNoStraight | blitz.py:59-68 | with exactly the ranks A, 2, 3, 4, 5 present there is no straight (the Ace is high only) |
| RankTables.FirstFlushSuit | blitz.py:49-54 | the result has five or more cards and every earlier suit in `SUITS` has fewer; it is None exactly when no suit has five |
| RankTables.AtMostOneFlushSuit | blitz.py:51-54 | among seven cards at most one suit has five or more |
| RankTables.PairsExcludedLength | blitz.py:136 | excluding `p` paired ranks, each held twice, removes exactly `2p` cards |
| Scans.CountRanks | blitz.py:39-42 | the `rank_counts` loop computes the rank table |
| Scans.FindFlushSuit | blitz.py:49-54 | the flush loop with `break` returns the first suit held five times, or None |
| Scans.ScanForStraight | blitz.py:57-70 | `is_straight` holds exactly when a run of five ranks exists, and `last_rank` is then the lowest rank of the highest run |
| Scans.FindQuads | blitz.py:95-96 | the four-of-a-kind loop finds a rank exactly when one is held four times, and then finds the lowest such rank |
| Scans.FindThreeOfAKind | blitz.py:101-104 | the overwriting `three_kind` loop leaves the highest rank held three times |
| Scans.CollectRunRanks | blitz.py:119-122 | the `unique_ranks` loop collects the ranks of the cards in the window `[last_rank, last_rank + 4]` |
| Categories.StraightFlushValue | blitz.py:87-93 | the cards are those of the flush suit in the window, each as often as the seven cards hold it, highest first; royal flush (no key) exactly when the window is 10..A and the Ace of the flush suit is held, else straight flush keyed by the top card's rank |
| Categories.QuadsKicker | blitz.py:98 | `top_k_cards([rank], 1)` is one card of another rank, and no card of another rank is higher |
| Categories.QuadsValue | blitz.py:95-98 | four of a kind keyed by the quad rank: the four quad cards, then the highest card of another rank, five cards |
| Categories.FullHouseValue | blitz.py:106-112 | full house keyed by (three rank, pair rank): three cards of the first, then the two of the second |
| Categories.FlushValue | blitz.py:114-116 | flush keyed by the ranks of its cards, which are the five highest cards of the flush suit, non-increasing |
| Categories.RunRanks | blitz.py:119-122 | the set holds the rank of every card in the window, nothing outside the window, and only ranks some card has |
| Categories.RunHead | blitz.py:123-124 | when a run starts at `lo`, the sorted window cards number at least five and the first has rank `lo + 4` |
| Categories.StraightValue | blitz.py:118-124 | straight keyed by `last_rank + 4`: every card in the window, each as often as the seven cards hold it, and no other; non-increasing, at least five |
| Categories.TripsValue | blitz.py:126-129 | three of a kind keyed by the trips rank alone: the first three cards are every card of that rank, then the top two of all seven cards |
| Categories.TwoPairValue | blitz.py:131-137 | the category is two pair and the key starts with the first two ranks of the pairs list, in that order |
| Categories.TwoPairShape | blitz.py:133-137 | two pair keyed by (first pair, second pair, kicker rank): the first four cards are both cards of each pair, then the highest card outside every pair |
| Categories.OnePairValue | blitz.py:139-142 | one pair keyed by the pair rank and the ranks of its three kickers: the first two cards are both cards of the pair, the others the three highest cards of other ranks |
| Categories.HighCardValue | blitz.py:144-145 | high card keyed by the last sorted card's rank and then the ranks of the five highest cards |
| Categories.HighCardTop | blitz.py:145 | the high-card key repeats its first rank, and no card is higher than it |
| Evaluation.Reverse | blitz.py:131 | `[::-1]` keeps the length and reads the list back to front |
| Evaluation.Ladder | blitz.py:87-145 | the high-card branch is taken exactly when no flush, straight, quads, trips or pair was found; the two-pair branch takes the pairs list reversed, holding at least two ranks |
| Evaluation.TabulateSound | blitz.py:38-70 | each entry gathered before the ladder holds the counts, suits and ranks its branch relies on |
| Evaluation.LadderApplies | blitz.py:87-145 | whatever the seven cards, the branch the ladder picks has what its tuple needs, so every hand reaches a `return` |
| Evaluation.FlushMeans | blitz.py:49-54 | a flush suit is found exactly when some suit is held five times |
| Evaluation.StraightMeans | blitz.py:57-70 | a straight is found exactly when five consecutive ranks, the lowest from 2 to 10, are all held |
| Evaluation.CountedMeans | blitz.py:95-96 | the ranks with count `n` are non-empty exactly when some rank is held `n` times |
| Evaluation.TripsMeans | blitz.py:101-104 | `three_kind` is set exactly when some rank is held three times |
| Evaluation.PairedRanksCount | blitz.py:131 | the pairs list is as long as the number of ranks held exactly twice |
| Evaluation.TabulateMeans | blitz.py:38-70 | every entry gathered before the ladder means the condition on the cards that its test asks |
| Evaluation.LadderFirstMatch | blitz.py:87-145 | the chosen branch's condition holds and no higher branch's does |
| Evaluation.FullHouseChoice | blitz.py:101-111 | the full house takes the highest rank held three times and the lowest rank held twice |
| Evaluation.RunChoice | blitz.py:57-70 | straight and straight flush both start at the highest run of five ranks among all seven cards, whatever their suits |
| Evaluation.Build | blitz.py:87-145 | the tuple each branch returns has that branch's category, except that the straight-flush branch may return royal flush |
| Evaluation.Classify | blitz.py:87-145 | the category of the classification is one of the ten, high card to royal flush |
| Evaluation.Evaluate | blitz.py:37-145 | `evaluate_hand` returns a category from high card (0) to royal flush (9) |
| Evaluation.ClassifyTier | blitz.py:87-145 | the category returned is the highest rung whose condition the cards meet, with royal flush on the straight flush's rung |
| Evaluation.ClassifyFullHouse | blitz.py:106-112 | a full-house result is keyed by the highest rank held three times and then the lowest rank held twice |
| Evaluation.ClassifyTwoPair | blitz.py:131-137 | a two-pair result is keyed by the two highest ranks held twice, descending, then by the highest rank held by some card but not held twice |
| Evaluation.QualifiesAgree | blitz.py:38 | whether a rung's condition holds depends only on which cards there are, not on their order |
| Evaluation.EvaluateTier | blitz.py:37-145 | `evaluate_hand(hand, community)` returns the category of the first rung, from straight flush down, met by the seven cards |
| Hand.EvaluateHand | blitz.py:37-145 | the method that sorts, runs the loops and takes the tests top down returns `Evaluate(hand, community)` |
| Hand.EvaluateSorted | blitz.py:39-145 | the body after the sort returns the classification of the sorted cards |
| Hand.FoundIsTabulate | blitz.py:39-70 | the loops' results are the entries the ladder is specified on |
| Hand.Climb | blitz.py:87-145 | the branch chosen step by step, with its tuple, is the specified one |
| Hand.UpperRungs | blitz.py:87-112 | the straight-flush, four-of-a-kind and full-house tests pick the ladder's branch |
| Hand.LowerRungs | blitz.py:114-129 | the flush, straight and three-of-a-kind tests pick the ladder's branch |
| Hand.PairRungs | blitz.py:131-145 | the two-pair, one-pair and high-card tests pick the ladder's branch |
| Showdown.SeqLess | blitz.py:173-177 | Python's `<` on int sequences never holds between equal sequences |
| Showdown.SeqLessIsLexicographic | blitz.py:173-177 | Python's `<` on int sequences holds exactly when the first difference is smaller or the first is a proper prefix |
| Showdown.SeqLessAsymmetric | blitz.py:173-177 | two sequences are never each below the other |
| Showdown.SeqLessTransitive | blitz.py:173-177 | `<` on sequences is transitive |
| Showdown.SeqLessTotal | blitz.py:173-177 | two sequences are equal or one is below the other |
| Showdown.Decide | blitz.py:173-178 | a tie exactly when category and key are equal; player 1 wins exactly when player 2's value is below, and player 2 exactly when player 1's is |
| Showdown.CategoryDecides | blitz.py:173-178 | a higher category wins whatever the keys |
| Showdown.KeyDecides | blitz.py:173-178 | within a category, the keys decide as sequences |
| Showdown.BelowIsStrictOrder | blitz.py:173-178 | the comparison of values is irreflexive, asymmetric and transitive |
| Showdown.Correct | blitz.py:170-178 | `main`'s `if`/`elif` chain counts the answer as correct exactly when it names the outcome: "1", "2" or "t" |

## Left out

- `deal_cards` (blitz.py:27-35) shuffles with `random`. The model takes any two hole cards and five community cards, and it does not require them to be distinct (neither does the source).
- `main`'s terminal input, timing, play-again loop and statistics are I/O. Only its comparison of the two evaluations is modelled.
- `Card.__str__`, its colours, and every `print` (blitz.py:20, 24, 43, 132) are output only.
- The chosen cards at the end of each tuple take no part in the comparison. In the source, Python goes on to compare those `Card` lists: with no `__eq__`, equality there is object identity, and ordering is by rank. The model stops at category and key, so two royal flushes (whose tuple has no integers after the category) always tie here.
- The flush tuple carries its five ranks as one nested list. The model flattens them into the key; the order is the same because every flush key has exactly five entries.
- Evaluation.Classify: its own `ensures` states only the range of the category. Its properties are stated by ClassifyTier, ClassifyFullHouse, ClassifyTwoPair and the builders.
- Evaluation.Evaluate: its own `ensures` states only the range of the category. It is characterised by EvaluateTier and by Hand.EvaluateHand.
- Evaluation.Ladder: its own `ensures` covers only the high-card and two-pair branches. The first-match order of all branches is stated by LadderFirstMatch.
- Categories.TwoPairValue: its own `ensures` states only the category and the two pair ranks of the key. Its full shape is stated by TwoPairShape.
- Selection.Filter: ensures only that it does not grow the list. Membership and multiplicity are stated by FilterMembers and FilterMultiplicity.
- Showdown.SeqLess: ensures only that the sequences differ. Its order properties are the lemmas beside it.
