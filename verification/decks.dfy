/**
 * The deck: `Deck.create` appends the 52 cards rank by rank, `Deck.deal`
 * takes cards off the front.
 */
module Decks {
  import opened Cards

  /** The 52 cards in creation order: ranks 1..13, and within a rank suits 0..3. */
  function StandardDeck(): (d: seq<Card>)
    ensures |d| == 52
    ensures forall c :: c in d ==> ValidCard(c)
    ensures forall i, j :: 0 <= i < j < |d| ==> Before(d[i], d[j])
  {
    seq(52, i requires 0 <= i < 52 => Card(i / 4 + 1, i % 4))
  }

  /** Card `a` comes before card `b` in rank-major, suit-minor order. */
  predicate Before(a: Card, b: Card) {
    a.value < b.value || (a.value == b.value && a.suit < b.suit)
  }

  /** The standard deck holds every card of the game. */
  lemma StandardDeckComplete()
    ensures |StandardDeck()| == 52
    ensures forall c :: c in StandardDeck() <==> ValidCard(c)
  {
    var d := StandardDeck();
    forall c | ValidCard(c) ensures c in d {
      var i := 4 * (c.value - 1) + c.suit;
      assert d[i] == c;
    }
  }

  /** Hence each card of the game occurs in it exactly once. */
  lemma StandardDeckOnceEach()
    ensures forall c :: ValidCard(c) ==> multiset(StandardDeck())[c] == 1
  {
    StandardDeckComplete();
    var d := StandardDeck();
    forall c | ValidCard(c) ensures multiset(d)[c] == 1 {
      var i :| 0 <= i < 52 && d[i] == c;
      assert d == d[..i] + [c] + d[i + 1..];
      assert c !in d[..i] by {
        forall k | 0 <= k < i ensures d[..i][k] != c { assert Before(d[k], d[i]); }
      }
      assert c !in d[i + 1..] by {
        var rest := d[i + 1..];
        forall k | 0 <= k < |rest| ensures rest[k] != c { assert Before(d[i], d[i + 1 + k]); }
      }
    }
  }

  class Deck {
    var cards: seq<Card>

    /** An empty deck, as a zero `Deck{}` value. */
    constructor ()
      ensures cards == []
    {
      cards := [];
    }

    /** `create`: appends the standard deck to whatever the deck holds. */
    method Create()
      modifies this
      ensures cards == old(cards) + StandardDeck()
    {
      ghost var start := cards;
      for i := 1 to 14
        invariant cards == start + StandardDeck()[..4 * (i - 1)]
      {
        for j := 0 to 4
          invariant cards == start + StandardDeck()[..4 * (i - 1) + j]
        {
          assert StandardDeck()[4 * (i - 1) + j] == Card(i, j);
          assert StandardDeck()[..4 * (i - 1) + j + 1] == StandardDeck()[..4 * (i - 1) + j] + [Card(i, j)];
          cards := cards + [Card(i, j)];
        }
      }
      assert StandardDeck()[..52] == StandardDeck();
    }

    /** `deal(n)`: removes the first `n` cards and returns them in order. The
        source indexes `cards[0]` unchecked, so dealing more cards than the
        deck holds is a panic; callers must not do it. */
    method Deal(n: nat) returns (dealt: seq<Card>)
      requires n <= |cards|
      modifies this
      ensures |dealt| == n
      ensures dealt + cards == old(cards)
      ensures dealt == old(cards)[..n] && cards == old(cards)[n..]
    {
      dealt := [];
      for i := 0 to n
        invariant dealt == old(cards)[..i]
        invariant cards == old(cards)[i..]
      {
        var card := cards[0];
        dealt := dealt + [card];
        cards := cards[1..];
      }
    }
  }
}
