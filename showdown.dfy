/** How `main` decides a round: the two evaluations are compared as Python
    compares tuples, position by position, and the player whose value is
    larger wins. The comparison here stops at the integer part of the tuple:
    the category followed by its key. */
module Showdown {
  import opened Categories

  datatype Outcome = Player1Wins | Player2Wins | Tie

  /** Python's `<` on two sequences of ints: the first position where they
      differ decides, and a proper prefix is smaller than the longer one. */
  function SeqLess(a: seq<int>, b: seq<int>): (less: bool)
    ensures less ==> a != b
  {
    if a == [] then b != []
    else if b == [] then false
    else if a[0] != b[0] then a[0] < b[0]
    else SeqLess(a[1..], b[1..])
  }

  /** `a` and `b` agree before position `i` and `a` is smaller at `i`. */
  predicate SmallerAt(a: seq<int>, b: seq<int>, i: int)
  {
    0 <= i < |a| && i < |b| && a[..i] == b[..i] && a[i] < b[i]
  }

  /** The textbook statement of lexicographic order. */
  ghost predicate Lexicographic(a: seq<int>, b: seq<int>)
  {
    (exists i :: SmallerAt(a, b, i)) || (|a| < |b| && a == b[..|a|])
  }

  lemma {:induction false} SeqLessIsLexicographic(a: seq<int>, b: seq<int>)
    ensures SeqLess(a, b) <==> Lexicographic(a, b)
  {
    if a == [] {
      if b != [] {
        assert |a| < |b| && a == b[..|a|];
      }
    } else if b == [] {
      assert !(|a| < |b|);
    } else if a[0] != b[0] {
      if a[0] < b[0] {
        assert SmallerAt(a, b, 0);
      }
      forall i | 0 < i <= |a| && i <= |b|
        ensures a[..i] != b[..i]
      {
        assert a[..i][0] == a[0] && b[..i][0] == b[0];
      }
      if |a| < |b| {
        assert b[..|a|][0] == b[0];
      }
    } else {
      SeqLessIsLexicographic(a[1..], b[1..]);
      if SeqLess(a[1..], b[1..]) {
        if i :| SmallerAt(a[1..], b[1..], i) {
          assert a[..i + 1] == [a[0]] + a[1..][..i];
          assert b[..i + 1] == [b[0]] + b[1..][..i];
          assert SmallerAt(a, b, i + 1);
        } else {
          assert a == [a[0]] + a[1..];
          assert b[..|a|] == [b[0]] + b[1..][..|a[1..]|];
        }
      }
      if i :| SmallerAt(a, b, i) {
        assert i > 0;
        assert a[1..][..i - 1] == a[..i][1..];
        assert b[1..][..i - 1] == b[..i][1..];
        assert SmallerAt(a[1..], b[1..], i - 1);
      }
      if |a| < |b| && a == b[..|a|] {
        assert a[1..] == b[1..][..|a[1..]|];
      }
    }
  }

  lemma {:induction false} SeqLessAsymmetric(a: seq<int>, b: seq<int>)
    ensures !(SeqLess(a, b) && SeqLess(b, a))
  {
    if a != [] && b != [] && a[0] == b[0] {
      SeqLessAsymmetric(a[1..], b[1..]);
    }
  }

  lemma {:induction false} SeqLessTransitive(a: seq<int>, b: seq<int>, c: seq<int>)
    requires SeqLess(a, b) && SeqLess(b, c)
    ensures SeqLess(a, c)
  {
    if a != [] && b != [] && c != [] && a[0] == b[0] && b[0] == c[0] {
      SeqLessTransitive(a[1..], b[1..], c[1..]);
    }
  }

  lemma {:induction false} SeqLessTotal(a: seq<int>, b: seq<int>)
    ensures a == b || SeqLess(a, b) || SeqLess(b, a)
  {
    if a != [] && b != [] && a[0] == b[0] {
      SeqLessTotal(a[1..], b[1..]);
      if a[1..] == b[1..] {
        assert a == [a[0]] + a[1..] && b == [b[0]] + b[1..];
      }
    }
  }

  /** The integer part of an evaluation's tuple: the category, then its key. */
  function Tuple(v: HandValue): (t: seq<int>)
    ensures |t| == 1 + |v.key| && t[0] == v.category && t[1..] == v.key
  {
    [v.category] + v.key
  }

  /** `p1_eval < p2_eval`, on the integer part of the tuples. */
  predicate Below(x: HandValue, y: HandValue)
  {
    SeqLess(Tuple(x), Tuple(y))
  }

  /** The three tests of `main`: equal tuples tie, otherwise the larger wins. */
  function Decide(p1: HandValue, p2: HandValue): (o: Outcome)
    ensures o == Tie <==> p1.category == p2.category && p1.key == p2.key
    ensures o == Player1Wins <==> Below(p2, p1)
    ensures o == Player2Wins <==> Below(p1, p2)
  {
    SeqLessAsymmetric(Tuple(p1), Tuple(p2));
    SeqLessTotal(Tuple(p1), Tuple(p2));
    if Tuple(p1) == Tuple(p2) then Tie
    else if Below(p2, p1) then Player1Wins
    else Player2Wins
  }

  /** A higher category beats a lower one whatever the keys are. */
  lemma CategoryDecides(x: HandValue, y: HandValue)
    requires x.category < y.category
    ensures Below(x, y) && Decide(x, y) == Player2Wins && Decide(y, x) == Player1Wins
  {
    assert Tuple(x)[0] == x.category && Tuple(y)[0] == y.category;
  }

  /** Within a category the keys are compared as sequences. */
  lemma KeyDecides(x: HandValue, y: HandValue)
    requires x.category == y.category
    ensures Below(x, y) <==> SeqLess(x.key, y.key)
  {
    assert Tuple(x)[1..] == x.key && Tuple(y)[1..] == y.key;
  }

  /** `Below` is a strict order: never both ways and transitive. */
  lemma BelowIsStrictOrder(x: HandValue, y: HandValue, z: HandValue)
    ensures !Below(x, x)
    ensures !(Below(x, y) && Below(y, x))
    ensures Below(x, y) && Below(y, z) ==> Below(x, z)
  {
    SeqLessAsymmetric(Tuple(x), Tuple(y));
    if Below(x, y) && Below(y, z) {
      SeqLessTransitive(Tuple(x), Tuple(y), Tuple(z));
    }
  }

  /** The answer `main` counts as correct for an outcome. */
  function Answer(o: Outcome): (a: string)
  {
    match o
    case Player1Wins => "1"
    case Player2Wins => "2"
    case Tie => "t"
  }

  /** `main`'s `if`/`elif` chain on the player's answer. */
  function Correct(answer: string, p1: HandValue, p2: HandValue): (correct: bool)
    ensures correct <==> answer == Answer(Decide(p1, p2))
  {
    SeqLessAsymmetric(Tuple(p1), Tuple(p2));
    if Tuple(p1) == Tuple(p2) && answer == "t" then true
    else if Below(p2, p1) && answer == "1" then true
    else if Below(p1, p2) && answer == "2" then true
    else false
  }
}
