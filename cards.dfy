/** The card model of the evaluator: the rank and suit tables, cards, and the
    rank-only comparison cards use. */
module Cards {

  datatype Option<T> = None | Some(value: T)

  /** Rank symbols from weakest to strongest; a rank is modelled by its index in this table. */
  const RANKS: seq<string> := ["2", "3", "4", "5", "6", "7", "8", "9", "10", "J", "Q", "K", "A"]

  /** Suit symbols; a suit is modelled by its index in this table. Each symbol is a
      one-character string in the source, so it is a `char` here. */
  const SUITS: seq<char> := ['♠', '♣', '♦', '♥']

  type Rank = r: int | 0 <= r < 13
  type Suit = s: int | 0 <= s < 4

  const ACE: Rank := 12

  datatype Card = Card(rank: Rank, suit: Suit)

  /** The symbol of a rank: `RANKS.index` maps it back to the rank. */
  function RankSymbol(r: Rank): string
  {
    RANKS[r]
  }

  /** Both tables list distinct symbols, so a card's rank and suit are fixed by
      their indices and `RANKS.index` is defined on every rank symbol; the Ace is
      the last rank and the lowest rank is "2". */
  lemma SymbolTables()
    ensures forall i, j :: 0 <= i < j < 13 ==> RankSymbol(i) != RankSymbol(j)
    ensures forall i, j :: 0 <= i < j < 4 ==> Symbol(i) != Symbol(j)
    ensures RankSymbol(ACE) == "A" && RankSymbol(0) == "2"
  {
  }

  /** The symbol of a suit, whose code point orders suits when cards are sorted. */
  function Symbol(s: Suit): char
  {
    SUITS[s]
  }

  /** `Card.__lt__`: a card is below another when its rank index is smaller. */
  predicate Less(a: Card, b: Card)
  {
    a.rank < b.rank
  }

  /** `Card.__gt__`: a card is above another when its rank index is larger. */
  predicate Greater(a: Card, b: Card)
  {
    a.rank > b.rank
  }

  /** Cards compare by rank alone: the two operators are converse strict orders,
      and two cards are incomparable exactly when their ranks are equal, whatever
      their suits. */
  lemma RankOnlyComparison(a: Card, b: Card, c: Card)
    ensures Less(a, b) <==> Greater(b, a)
    ensures !Less(a, a) && !Greater(a, a)
    ensures Less(a, b) && Less(b, c) ==> Less(a, c)
    ensures !Less(a, b) && !Greater(a, b) <==> a.rank == b.rank
  {
  }

  /** The order of the key `(rank, suit)` that the seven cards are sorted by:
      rank index first, then the code point of the suit symbol. */
  predicate KeyLeq(a: Card, b: Card)
  {
    a.rank < b.rank || (a.rank == b.rank && Symbol(a.suit) <= Symbol(b.suit))
  }

  /** Python compares one-character strings by code point; listing the suits by
      their symbols gives spades, clubs, hearts, diamonds (indices 0, 1, 3, 2). */
  lemma SymbolOrder()
    ensures Symbol(0) < Symbol(1) < Symbol(3) < Symbol(2)
  {
  }
}
