/** The list operations the evaluator builds its card lists with: the filtering
    list comprehensions, Python slicing, the stable sorts, and `top_k_cards`. */
module Selection {
  import opened Cards

  /** The list an exclusion test looks a rank up in. `top_k_cards` is mostly
      given rank symbols, but once it is given card objects: a rank symbol never
      equals a card object (cards define no equality), so that list excludes nothing. */
  datatype Excluded = RankList(ranks: seq<int>) | CardObjects(objects: seq<Card>)

  predicate Excludes(ex: Excluded, r: int)
  {
    match ex
    case RankList(rs) => r in rs
    case CardObjects(_) => false
  }

  /** The conditions of the evaluator's list comprehensions. */
  datatype Pick =
    | RankIs(r: int)
    | SuitIs(s: int)
    | RankBetween(lo: int, hi: int)
    | RankAmong(u: set<int>)
    | NotExcluded(ex: Excluded)

  predicate Matches(p: Pick, c: Card)
  {
    match p
    case RankIs(r) => c.rank == r
    case SuitIs(s) => c.suit == s
    case RankBetween(lo, hi) => lo <= c.rank <= hi
    case RankAmong(u) => c.rank in u
    case NotExcluded(ex) => !Excludes(ex, c.rank)
  }

  /** `[c for c in cs if p(c)]`: the cards of `cs` that satisfy `p`, in their order. */
  function Filter(cs: seq<Card>, p: Pick): (r: seq<Card>)
    ensures |r| <= |cs|
  {
    if cs == [] then []
    else (if Matches(p, cs[0]) then [cs[0]] else []) + Filter(cs[1..], p)
  }

  /** A filter keeps exactly the cards of the list that satisfy the condition. */
  lemma {:induction false} FilterMembers(cs: seq<Card>, p: Pick)
    ensures forall c :: c in Filter(cs, p) <==> c in cs && Matches(p, c)
  {
    if cs != [] {
      FilterMembers(cs[1..], p);
      assert forall c :: c in cs <==> c == cs[0] || c in cs[1..];
    }
  }

  /** Filtering keeps every copy of a matching card and drops every other card. */
  lemma {:induction false} FilterMultiplicity(cs: seq<Card>, p: Pick, c: Card)
    ensures multiset(Filter(cs, p))[c] == if Matches(p, c) then multiset(cs)[c] else 0
  {
    if cs != [] {
      FilterMultiplicity(cs[1..], p, c);
      var head := if Matches(p, cs[0]) then [cs[0]] else [];
      assert Filter(cs, p) == head + Filter(cs[1..], p);
      assert multiset(Filter(cs, p)) == multiset(head) + multiset(Filter(cs[1..], p));
      assert cs == [cs[0]] + cs[1..];
      assert multiset(cs) == multiset([cs[0]]) + multiset(cs[1..]);
    }
  }

  lemma FilterPermutation(a: seq<Card>, b: seq<Card>, p: Pick)
    requires multiset(a) == multiset(b)
    ensures multiset(Filter(a, p)) == multiset(Filter(b, p))
    ensures |Filter(a, p)| == |Filter(b, p)|
  {
    forall c ensures multiset(Filter(a, p))[c] == multiset(Filter(b, p))[c] {
      FilterMultiplicity(a, p, c);
      FilterMultiplicity(b, p, c);
    }
    assert multiset(Filter(a, p)) == multiset(Filter(b, p));
    assert |multiset(Filter(a, p))| == |Filter(a, p)|;
    assert |multiset(Filter(b, p))| == |Filter(b, p)|;
  }

  lemma {:induction false} FilterKeepsAll(cs: seq<Card>, p: Pick)
    requires forall c :: c in cs ==> Matches(p, c)
    ensures Filter(cs, p) == cs
  {
    if cs != [] {
      FilterKeepsAll(cs[1..], p);
      assert cs == [cs[0]] + cs[1..];
    }
  }

  lemma {:induction false} FilterKeepsNone(cs: seq<Card>, p: Pick)
    requires forall c :: c in cs ==> !Matches(p, c)
    ensures Filter(cs, p) == []
  {
    if cs != [] {
      FilterKeepsNone(cs[1..], p);
    }
  }

  lemma {:induction false} FilterSameOn(cs: seq<Card>, p: Pick, q: Pick)
    requires forall c :: c in cs ==> (Matches(p, c) <==> Matches(q, c))
    ensures Filter(cs, p) == Filter(cs, q)
  {
    if cs != [] {
      FilterSameOn(cs[1..], p, q);
    }
  }

  /** A condition that holds of exactly one of `p` and `q` splits the list in two. */
  lemma {:induction false} FilterDisjointUnion(cs: seq<Card>, p: Pick, q: Pick, pq: Pick)
    requires forall c :: Matches(pq, c) <==> Matches(p, c) || Matches(q, c)
    requires forall c :: !(Matches(p, c) && Matches(q, c))
    ensures |Filter(cs, pq)| == |Filter(cs, p)| + |Filter(cs, q)|
  {
    if cs != [] {
      FilterDisjointUnion(cs[1..], p, q, pq);
    }
  }

  lemma {:induction false} FilterComplement(cs: seq<Card>, p: Pick, q: Pick)
    requires forall c :: Matches(p, c) != Matches(q, c)
    ensures |Filter(cs, p)| + |Filter(cs, q)| == |cs|
  {
    if cs != [] {
      FilterComplement(cs[1..], p, q);
    }
  }

  /** Inclusion-exclusion: what two conditions select together is at least what
      they select apart minus the whole list. */
  lemma {:induction false} FilterOverlap(cs: seq<Card>, p: Pick, q: Pick)
    ensures |Filter(cs, p)| + |Filter(cs, q)| <= |cs| + |Filter(Filter(cs, p), q)|
  {
    if cs != [] {
      FilterOverlap(cs[1..], p, q);
      if Matches(p, cs[0]) {
        assert Filter(cs, p) == [cs[0]] + Filter(cs[1..], p);
        assert Filter(cs, p)[1..] == Filter(cs[1..], p);
      } else {
        assert Filter(cs, p) == Filter(cs[1..], p);
      }
    }
  }

  /** Python slicing `s[:k]`, which stops at the end of the list. */
  function Take(s: seq<Card>, k: nat): (t: seq<Card>)
    ensures |t| == if k < |s| then k else |s|
    ensures t == s[..|t|]
  {
    if k < |s| then s[..k] else s
  }

  /** `[RANKS.index(card.rank) for card in s]`. */
  function RanksOf(s: seq<Card>): (rs: seq<int>)
    ensures |rs| == |s|
    ensures forall i :: 0 <= i < |s| ==> rs[i] == s[i].rank
  {
    if s == [] then [] else [s[0].rank] + RanksOf(s[1..])
  }

  predicate NonIncreasing(s: seq<Card>)
  {
    forall i, j :: 0 <= i < j < |s| ==> s[i].rank >= s[j].rank
  }

  predicate KeySorted(s: seq<Card>)
  {
    forall i, j :: 0 <= i < j < |s| ==> KeyLeq(s[i], s[j])
  }

  // ----- sorted(..., key=rank, reverse=True) -----

  /** The cards of rank `r` and below, highest rank first, each rank's cards in
      their order in `cs`. */
  function DescFrom(cs: seq<Card>, r: int): (d: seq<Card>)
    decreases r
    ensures forall i :: 0 <= i < |d| ==> d[i].rank <= r
    ensures NonIncreasing(d)
  {
    if r < 0 then []
    else
      var here := Filter(cs, RankIs(r));
      var rest := DescFrom(cs, r - 1);
      FilterMembers(cs, RankIs(r));
      assert forall i :: 0 <= i < |here| ==> here[i] in here;
      here + rest
  }

  lemma {:induction false} DescFromMultiplicity(cs: seq<Card>, r: int, c: Card)
    decreases r
    ensures multiset(DescFrom(cs, r))[c] == if c.rank <= r then multiset(cs)[c] else 0
  {
    if r >= 0 {
      DescFromMultiplicity(cs, r - 1, c);
      FilterMultiplicity(cs, RankIs(r), c);
    }
  }

  /** Two lists that hold every card equally often are rearrangements of each other. */
  lemma SameCounts(a: seq<Card>, b: seq<Card>)
    requires forall c :: multiset(a)[c] == multiset(b)[c]
    ensures multiset(a) == multiset(b) && |a| == |b|
  {
    assert multiset(a) == multiset(b);
    assert |multiset(a)| == |a| && |multiset(b)| == |b|;
  }

  lemma DescFromPermutes(cs: seq<Card>)
    ensures multiset(DescFrom(cs, 12)) == multiset(cs) && |DescFrom(cs, 12)| == |cs|
  {
    forall c ensures multiset(DescFrom(cs, 12))[c] == multiset(cs)[c] {
      DescFromMultiplicity(cs, 12, c);
    }
    SameCounts(DescFrom(cs, 12), cs);
  }

  /** Python's stable `sorted(cs, key=rank, reverse=True)`: ranks from Ace down,
      cards of equal rank keeping their order in `cs`. The result is a
      rearrangement of `cs` with non-increasing ranks. */
  function DescByRank(cs: seq<Card>): (d: seq<Card>)
    ensures NonIncreasing(d)
    ensures multiset(d) == multiset(cs)
    ensures |d| == |cs|
  {
    DescFromPermutes(cs);
    DescFrom(cs, 12)
  }

  /** A filter of a concatenation is the concatenation of the filters. */
  lemma {:induction false} FilterAppend(a: seq<Card>, b: seq<Card>, p: Pick)
    ensures Filter(a + b, p) == Filter(a, p) + Filter(b, p)
  {
    if a != [] {
      FilterAppend(a[1..], b, p);
      var head := if Matches(p, a[0]) then [a[0]] else [];
      assert (a + b)[0] == a[0] && (a + b)[1..] == a[1..] + b;
      assert Filter(a + b, p) == head + (Filter(a[1..], p) + Filter(b, p));
    } else {
      assert a + b == b;
    }
  }

  /** The cards of rank `x` in `DescFrom(cs, r)` are those of `cs`, in the same
      order, when `x <= r`; there are none above `r`. */
  lemma {:induction false} DescFromStable(cs: seq<Card>, r: int, x: int)
    decreases r
    ensures Filter(DescFrom(cs, r), RankIs(x)) == if x <= r then Filter(cs, RankIs(x)) else []
  {
    if r < 0 {
      if x <= r {
        FilterKeepsNone(cs, RankIs(x));
      }
    } else {
      var here := Filter(cs, RankIs(r));
      var rest := DescFrom(cs, r - 1);
      assert DescFrom(cs, r) == here + rest;
      FilterAppend(here, rest, RankIs(x));
      DescFromStable(cs, r - 1, x);
      FilterMembers(cs, RankIs(r));
      if x == r {
        FilterKeepsAll(here, RankIs(x));
      } else {
        FilterKeepsNone(here, RankIs(x));
      }
    }
  }

  /** The sort is stable: the cards of each rank come out in their order in `cs`. */
  lemma DescByRankStable(cs: seq<Card>)
    ensures forall x :: Filter(DescByRank(cs), RankIs(x)) == Filter(cs, RankIs(x))
  {
    forall x ensures Filter(DescByRank(cs), RankIs(x)) == Filter(cs, RankIs(x)) {
      DescFromStable(cs, 12, x);
      if x > 12 {
        FilterKeepsNone(cs, RankIs(x));
      }
    }
  }

  // ----- sorted(..., key=(rank, suit)) -----

  /** Cards of one rank ordered by suit symbol: spades, clubs, hearts, diamonds. */
  function InSymbolOrder(g: seq<Card>): (o: seq<Card>)
    ensures forall c :: c in o ==> c in g
  {
    FilterMembers(g, SuitIs(0));
    FilterMembers(g, SuitIs(1));
    FilterMembers(g, SuitIs(3));
    FilterMembers(g, SuitIs(2));
    Filter(g, SuitIs(0)) + Filter(g, SuitIs(1)) + Filter(g, SuitIs(3)) + Filter(g, SuitIs(2))
  }

  function AscFrom(cs: seq<Card>, r: int): (a: seq<Card>)
    decreases 13 - r
    ensures forall i :: 0 <= i < |a| ==> a[i].rank >= r
  {
    if r >= 13 then []
    else
      var here := InSymbolOrder(Filter(cs, RankIs(r)));
      var rest := AscFrom(cs, r + 1);
      FilterMembers(cs, RankIs(r));
      assert forall c :: c in here ==> c.rank == r;
      assert forall i :: 0 <= i < |here| ==> here[i] in here;
      here + rest
  }

  lemma SortedAppend(a: seq<Card>, b: seq<Card>)
    requires KeySorted(a) && KeySorted(b)
    requires forall i, j :: 0 <= i < |a| && 0 <= j < |b| ==> KeyLeq(a[i], b[j])
    ensures KeySorted(a + b)
  {
    forall i, j | 0 <= i < j < |a + b| ensures KeyLeq((a + b)[i], (a + b)[j]) {
      if j < |a| {
        assert (a + b)[i] == a[i] && (a + b)[j] == a[j];
      } else if i < |a| {
        assert (a + b)[i] == a[i] && (a + b)[j] == b[j - |a|];
      } else {
        assert (a + b)[i] == b[i - |a|] && (a + b)[j] == b[j - |a|];
      }
    }
  }

  /** One rank's cards put in suit-symbol order are sorted by the key. */
  lemma InSymbolOrderSorted(g: seq<Card>, r: int)
    requires forall c :: c in g ==> c.rank == r
    ensures KeySorted(InSymbolOrder(g))
  {
    SymbolOrder();
    var s0, s1, s3, s2 := Filter(g, SuitIs(0)), Filter(g, SuitIs(1)), Filter(g, SuitIs(3)), Filter(g, SuitIs(2));
    FilterMembers(g, SuitIs(0));
    FilterMembers(g, SuitIs(1));
    FilterMembers(g, SuitIs(3));
    FilterMembers(g, SuitIs(2));
    assert forall i :: 0 <= i < |s0| ==> s0[i] in s0;
    assert forall i :: 0 <= i < |s1| ==> s1[i] in s1;
    assert forall i :: 0 <= i < |s3| ==> s3[i] in s3;
    assert forall i :: 0 <= i < |s2| ==> s2[i] in s2;
    SortedAppend(s0, s1);
    SortedAppend(s0 + s1, s3);
    SortedAppend(s0 + s1 + s3, s2);
  }

  lemma {:induction false} AscFromSorted(cs: seq<Card>, r: int)
    decreases 13 - r
    ensures KeySorted(AscFrom(cs, r))
  {
    if r < 13 {
      var g := Filter(cs, RankIs(r));
      var here := InSymbolOrder(g);
      var rest := AscFrom(cs, r + 1);
      FilterMembers(cs, RankIs(r));
      InSymbolOrderSorted(g, r);
      AscFromSorted(cs, r + 1);
      assert forall c :: c in here ==> c.rank == r;
      assert forall i :: 0 <= i < |here| ==> here[i] in here;
      SortedAppend(here, rest);
    }
  }

  lemma InSymbolOrderMultiplicity(g: seq<Card>, c: Card)
    ensures multiset(InSymbolOrder(g))[c] == multiset(g)[c]
  {
    FilterMultiplicity(g, SuitIs(0), c);
    FilterMultiplicity(g, SuitIs(1), c);
    FilterMultiplicity(g, SuitIs(2), c);
    FilterMultiplicity(g, SuitIs(3), c);
  }

  lemma {:induction false} AscFromMultiplicity(cs: seq<Card>, r: int, c: Card)
    decreases 13 - r
    ensures multiset(AscFrom(cs, r))[c] == if c.rank >= r then multiset(cs)[c] else 0
  {
    if r < 13 {
      AscFromMultiplicity(cs, r + 1, c);
      InSymbolOrderMultiplicity(Filter(cs, RankIs(r)), c);
      FilterMultiplicity(cs, RankIs(r), c);
    }
  }

  lemma AscFromPermutes(cs: seq<Card>)
    ensures multiset(AscFrom(cs, 0)) == multiset(cs) && |AscFrom(cs, 0)| == |cs|
  {
    forall c ensures multiset(AscFrom(cs, 0))[c] == multiset(cs)[c] {
      AscFromMultiplicity(cs, 0, c);
    }
    SameCounts(AscFrom(cs, 0), cs);
  }

  /** `sorted(cards, key=(rank index, suit))`: the cards rearranged so that the key
      never decreases. */
  function Ascending(cs: seq<Card>): (a: seq<Card>)
    ensures KeySorted(a)
    ensures multiset(a) == multiset(cs)
    ensures |a| == |cs|
  {
    AscFromSorted(cs, 0);
    AscFromPermutes(cs);
    AscFrom(cs, 0)
  }

  // ----- top_k_cards -----

  /** `sel` is `k` cards of `pool` (fewer when the pool is smaller), highest rank
      first, and no card of the pool left out of it outranks a card in it. */
  predicate IsTopK(sel: seq<Card>, pool: seq<Card>, k: nat)
  {
    && |sel| == (if k < |pool| then k else |pool|)
    && multiset(sel) <= multiset(pool)
    && NonIncreasing(sel)
    && forall c, i :: c in multiset(pool) - multiset(sel) && 0 <= i < |sel| ==> c.rank <= sel[i].rank
  }

  /** A prefix of a rearrangement of `pool` sorted by non-increasing rank holds
      the highest cards of `pool`. */
  lemma PrefixIsTopK(d: seq<Card>, pool: seq<Card>, k: nat)
    requires NonIncreasing(d) && multiset(d) == multiset(pool)
    ensures IsTopK(Take(d, k), pool, k)
  {
    var top := Take(d, k);
    var rest := d[|top|..];
    assert d == top + rest;
    assert multiset(d) == multiset(top) + multiset(rest);
    assert |multiset(d)| == |d| && |multiset(pool)| == |pool|;
    assert multiset(pool) - multiset(top) == multiset(rest);
    PrefixOutranksRest(d, |top|);
  }

  /** In a list of non-increasing ranks, nothing after position `n` outranks anything before it. */
  lemma PrefixOutranksRest(d: seq<Card>, n: nat)
    requires NonIncreasing(d) && n <= |d|
    ensures forall c, i :: c in multiset(d[n..]) && 0 <= i < n ==> c.rank <= d[..n][i].rank
  {
    forall c, i | c in multiset(d[n..]) && 0 <= i < n ensures c.rank <= d[..n][i].rank {
      assert c in d[n..];
      var m :| 0 <= m < |d[n..]| && d[n..][m] == c;
      assert d[n + m] == c;
    }
  }

  /** `sorted(pool, key=rank, reverse=True)[:k]`: the `k` highest cards of `pool`. */
  function HighestOf(pool: seq<Card>, k: nat): (top: seq<Card>)
    ensures IsTopK(top, pool, k)
  {
    PrefixIsTopK(DescByRank(pool), pool, k);
    Take(DescByRank(pool), k)
  }

  /** The inner function `top_k_cards(excluded_ranks, k)`: the `k` highest cards of
      `all` whose rank the exclusion list does not hold. */
  function TopKCards(all: seq<Card>, excluded: Excluded, k: nat): (top: seq<Card>)
    ensures IsTopK(top, Filter(all, NotExcluded(excluded)), k)
  {
    HighestOf(Filter(all, NotExcluded(excluded)), k)
  }

  /** The first card of a list with non-increasing ranks is a highest one. */
  lemma HeadIsHighest(d: seq<Card>)
    requires NonIncreasing(d) && |d| > 0
    ensures forall c :: c in d ==> c.rank <= d[0].rank
  {
    forall c | c in d ensures c.rank <= d[0].rank {
      var j :| 0 <= j < |d| && d[j] == c;
    }
  }

  /** Every card of the pool is either chosen or no higher than the last card chosen. */
  lemma TopKBound(sel: seq<Card>, pool: seq<Card>, k: nat)
    requires IsTopK(sel, pool, k) && |sel| > 0
    ensures forall i :: 0 <= i < |sel| ==> sel[i] in pool
    ensures forall c :: c in pool ==> c in sel || c.rank <= sel[|sel| - 1].rank
  {
    forall i | 0 <= i < |sel| ensures sel[i] in pool {
      assert sel[i] in multiset(sel);
    }
    forall c | c in pool && c !in sel ensures c.rank <= sel[|sel| - 1].rank {
      assert c in multiset(pool);
      assert multiset(sel)[c] == 0;
      assert c in multiset(pool) - multiset(sel);
    }
  }

  /** A list with the same cards as another has the same members. */
  lemma SameMembers(d: seq<Card>, cs: seq<Card>)
    requires multiset(d) == multiset(cs)
    ensures forall c :: c in d <==> c in cs
  {
    forall c ensures c in d <==> c in cs {
      assert c in d <==> c in multiset(d);
      assert c in cs <==> c in multiset(cs);
    }
  }

  /** Every card a filter keeps, by position, comes from the list and meets the condition. */
  lemma FilterElements(cs: seq<Card>, p: Pick)
    ensures forall i :: 0 <= i < |Filter(cs, p)| ==> Filter(cs, p)[i] in cs && Matches(p, Filter(cs, p)[i])
  {
    var f := Filter(cs, p);
    FilterMembers(cs, p);
    assert forall i :: 0 <= i < |f| ==> f[i] in f;
  }

  /** The two parts of a concatenation are its prefix and its suffix. */
  lemma AppendParts(a: seq<Card>, b: seq<Card>)
    ensures (a + b)[..|a|] == a && (a + b)[|a|..] == b
  {
  }

  /** With nothing excluded by a card-object list, the pool is every card. */
  lemma CardObjectsExcludeNothing(all: seq<Card>, objects: seq<Card>)
    ensures Filter(all, NotExcluded(CardObjects(objects))) == all
  {
    FilterKeepsAll(all, NotExcluded(CardObjects(objects)));
  }
}
