/**
 * Hand scoring (`getCardValues`) and the predicates built on it:
 * `isBlackjack`, `shouldDealerHit` and `isPlayerWinner`.
 */
module Scoring {
  import opened Cards

  function Min(a: int, b: int): int {
    if a <= b then a else b
  }

  /** Sum of `f` over a hand, accumulated from the first card to the last. */
  function Tally(hand: seq<Card>, f: Card -> int): int
    decreases |hand|
  {
    if hand == [] then 0 else Tally(hand[..|hand| - 1], f) + f(hand[|hand| - 1])
  }

  function AcePoint(c: Card): int {
    if c.value == 1 then 1 else 0
  }

  /** A non-ace counts its rank, face cards 10. */
  function NonAcePoints(c: Card): int {
    if c.value == 1 then 0 else Min(10, c.value)
  }

  function AceCount(hand: seq<Card>): int {
    Tally(hand, AcePoint)
  }

  function NonAceTotal(hand: seq<Card>): int {
    Tally(hand, NonAcePoints)
  }

  /** The hard total: every ace counted as 1. */
  function HardTotal(hand: seq<Card>): int {
    AceCount(hand) + NonAceTotal(hand)
  }

  /** `getCardValues`, exactly as the source computes it: the soft total
      (one ace as 11) is chosen when the non-ace sum is below 10 plus the
      number of aces, a threshold on the sum BEFORE the aces are added. */
  function Score(hand: seq<Card>): int {
    var aces := AceCount(hand);
    var value := NonAceTotal(hand);
    if aces == 0 then value
    else if value < 11 + aces - 1 then value + 11 + aces - 1
    else value + aces
  }

  /** The usual blackjack count, as a reference: one ace as 11 whenever that
      does not take the hand past 21. */
  function BestTotal(hand: seq<Card>): int {
    var hard := HardTotal(hand);
    if AceCount(hand) > 0 && hard + 10 <= 21 then hard + 10 else hard
  }

  /** The source's loop over the hand, proved to compute Score. */
  method GetCardValues(cards: seq<Card>) returns (total: int)
    ensures total == Score(cards)
  {
    var aces, value := 0, 0;
    for i := 0 to |cards|
      invariant aces == AceCount(cards[..i])
      invariant value == NonAceTotal(cards[..i])
    {
      assert cards[..i + 1][..i] == cards[..i];
      if cards[i].value == 1 {
        aces := aces + 1;
      } else {
        value := value + Min(10, cards[i].value);
      }
    }
    assert cards[..|cards|] == cards;
    if aces == 0 {
      return value;
    }
    if value < 11 + aces - 1 {
      return value + 11 + aces - 1;
    }
    return value + aces;
  }

  // ---------------------------------------------------------------- tallies

  lemma {:induction false} TallyAppend(s: seq<Card>, t: seq<Card>, f: Card -> int)
    ensures Tally(s + t, f) == Tally(s, f) + Tally(t, f)
    decreases |t|
  {
    if t == [] {
      assert s + t == s;
    } else {
      var t' := t[..|t| - 1];
      assert (s + t)[..|s + t| - 1] == s + t';
      TallyAppend(s, t', f);
    }
  }

  /** A tally ignores the order of the cards. */
  lemma {:induction false} TallyPermutation(s: seq<Card>, t: seq<Card>, f: Card -> int)
    requires multiset(s) == multiset(t)
    ensures Tally(s, f) == Tally(t, f)
    decreases |s|
  {
    if s != [] {
      var x := s[|s| - 1];
      var s' := s[..|s| - 1];
      assert s == s' + [x];
      assert x in multiset(t);
      var j :| 0 <= j < |t| && t[j] == x;
      var t' := t[..j] + t[j + 1..];
      assert t == t[..j] + [x] + t[j + 1..];
      assert multiset(t') == multiset(t) - multiset{x};
      assert multiset(s') == multiset(s) - multiset{x};
      TallyPermutation(s', t', f);
      TallyAppend(t[..j], [x], f);
      TallyAppend(t[..j] + [x], t[j + 1..], f);
      TallyAppend(t[..j], t[j + 1..], f);
      assert Tally([x], f) == f(x) by { assert [x][..0] == []; }
    } else {
      assert |multiset(t)| == 0;
    }
  }

  /** No hand holds a negative number of aces. */
  lemma {:induction false} AceCountNonNegative(hand: seq<Card>)
    ensures 0 <= AceCount(hand) <= |hand|
    decreases |hand|
  {
    if hand != [] {
      AceCountNonNegative(hand[..|hand| - 1]);
    }
  }

  lemma TallyPair(a: Card, b: Card, f: Card -> int)
    ensures Tally([a, b], f) == f(a) + f(b)
  {
    assert [a, b][..1] == [a] && [a][..0] == [];
    assert Tally([a], f) == f(a);
  }

  lemma TallyTriple(a: Card, b: Card, c: Card, f: Card -> int)
    ensures Tally([a, b, c], f) == f(a) + f(b) + f(c)
  {
    assert [a, b, c][..2] == [a, b];
    TallyPair(a, b, f);
  }

  /** For cards of the deck, every card adds 0 or 1 aces and 1 to 10 to the hard total. */
  lemma {:induction false} HandBounds(hand: seq<Card>)
    requires ValidCards(hand)
    ensures 0 <= AceCount(hand) <= |hand|
    ensures 0 <= NonAceTotal(hand) <= 10 * (|hand| - AceCount(hand))
    ensures |hand| <= HardTotal(hand) <= 10 * |hand|
    decreases |hand|
  {
    if hand != [] {
      var h' := hand[..|hand| - 1];
      assert ValidCards(h') by {
        forall c | c in h' ensures ValidCard(c) { assert c in hand; }
      }
      assert hand[|hand| - 1] in hand;
      HandBounds(h');
    }
  }

  /** Drawing a card of the deck raises the hard total by 1 to 10. */
  lemma DrawRaisesHardTotal(hand: seq<Card>, c: Card)
    requires ValidCard(c)
    ensures HardTotal(hand) + 1 <= HardTotal(hand + [c]) <= HardTotal(hand) + 10
  {
  }

  // ---------------------------------------------------------------- scores

  /** Closed form: the hard total, plus 10 exactly when the hand holds an ace
      and its non-ace sum is below 10 plus the number of aces. */
  lemma ScoreClosedForm(hand: seq<Card>)
    ensures Score(hand) == HardTotal(hand) + (if AceCount(hand) > 0 && NonAceTotal(hand) < 10 + AceCount(hand) then 10 else 0)
    ensures Score(hand) >= HardTotal(hand)
  {
    AceCountNonNegative(hand);
  }

  /** The score depends on which cards are held, not on their order. */
  lemma ScoreOrderIndependent(s: seq<Card>, t: seq<Card>)
    requires multiset(s) == multiset(t)
    ensures Score(s) == Score(t)
  {
    TallyPermutation(s, t, AcePoint);
    TallyPermutation(s, t, NonAcePoints);
  }

  /** The source's threshold departs from the usual count exactly for hands
      with two or more aces whose non-ace sum lies in [12 - aces, 10 + aces),
      and every such hand scores more than 21 where the usual count does not
      add the 10. */
  lemma ScoreVersusBestTotal(hand: seq<Card>)
    ensures Score(hand) != BestTotal(hand) <==>
      (AceCount(hand) >= 2 && 12 - AceCount(hand) <= NonAceTotal(hand) < 10 + AceCount(hand))
    ensures Score(hand) != BestTotal(hand) ==> Score(hand) > 21 && Score(hand) == BestTotal(hand) + 10
    ensures Score(hand) <= 21 ==> Score(hand) == BestTotal(hand)
  {
    AceCountNonNegative(hand);
  }

  /** Two cards of the deck never score more than 21. */
  lemma TwoCardsNeverBust(hand: seq<Card>)
    requires ValidCards(hand) && |hand| == 2
    ensures Score(hand) <= 21
  {
    assert hand[0] in hand && hand[1] in hand;
    assert hand == [hand[0], hand[1]];
    TallyPair(hand[0], hand[1], AcePoint);
    TallyPair(hand[0], hand[1], NonAcePoints);
  }

  // ---------------------------------------------------------------- predicates

  /** `isBlackjack`: 21 with exactly two cards. */
  function IsBlackjack(cards: seq<Card>): bool {
    Score(cards) == 21 && |cards| == 2
  }

  /** `shouldDealerHit`: the dealer draws on 16 or less. */
  function ShouldDealerHit(cards: seq<Card>): bool {
    Score(cards) <= 16
  }

  /** `isPlayerWinner`: 0 for a push, 1 for a player win, -1 for a loss. */
  function IsPlayerWinner(player: seq<Card>, dealer: seq<Card>): int {
    var playerValue := Score(player);
    var dealerValue := Score(dealer);
    if playerValue == dealerValue then 0
    else if playerValue > dealerValue || dealerValue > 21 then 1
    else -1
  }

  /** A two-card hand of the deck is a blackjack exactly when it is an ace
      and a ten-valued card. */
  lemma BlackjackIsAceAndTen(hand: seq<Card>)
    requires ValidCards(hand)
    ensures IsBlackjack(hand) <==>
      |hand| == 2 &&
      ((hand[0].value == 1 && hand[1].value >= 10) || (hand[1].value == 1 && hand[0].value >= 10))
  {
    if |hand| == 2 {
      assert hand[0] in hand && hand[1] in hand;
      assert hand == [hand[0], hand[1]];
      TallyPair(hand[0], hand[1], AcePoint);
      TallyPair(hand[0], hand[1], NonAcePoints);
    }
  }

  /** Between two hands that did not bust, the comparison is antisymmetric,
      and it is 0, 1, -1 according to equal, higher, lower. */
  lemma WinnerAntisymmetric(player: seq<Card>, dealer: seq<Card>)
    requires Score(player) <= 21 && Score(dealer) <= 21
    ensures IsPlayerWinner(player, dealer) == -IsPlayerWinner(dealer, player)
    ensures IsPlayerWinner(player, dealer) == 0 <==> Score(player) == Score(dealer)
    ensures IsPlayerWinner(player, dealer) == 1 <==> Score(player) > Score(dealer)
    ensures IsPlayerWinner(player, dealer) == -1 <==> Score(player) < Score(dealer)
  {
  }

  /** A dealer bust is a player win unless the player holds the same score. */
  lemma DealerBustPaysPlayer(player: seq<Card>, dealer: seq<Card>)
    requires Score(dealer) > 21 && Score(player) != Score(dealer)
    ensures IsPlayerWinner(player, dealer) == 1
  {
  }

  /** The comparison alone would pay a busted player who tops the dealer,
      which is why the round checks the player's bust before comparing. */
  lemma WinnerAloneIgnoresPlayerBust()
    ensures IsPlayerWinner([Card(13, 0), Card(13, 1), Card(5, 2)], [Card(13, 3), Card(9, 0)]) == 1
  {
    var p := [Card(13, 0), Card(13, 1), Card(5, 2)];
    var d := [Card(13, 3), Card(9, 0)];
    TallyTriple(p[0], p[1], p[2], AcePoint);
    TallyTriple(p[0], p[1], p[2], NonAcePoints);
    TallyPair(d[0], d[1], AcePoint);
    TallyPair(d[0], d[1], NonAcePoints);
  }

  /** The worked scores: A-K 21, A-A 12, A-A-A 13, 10-10-5 25, A-9-A 21, and
      K-A-A 22 where the usual count gives 12; 7-7-7 is 21 but no blackjack. */
  lemma ScoreExamples()
    ensures Score([Card(1, 0), Card(13, 0)]) == 21
    ensures Score([Card(1, 0), Card(1, 1)]) == 12
    ensures Score([Card(1, 0), Card(1, 1), Card(1, 2)]) == 13
    ensures Score([Card(10, 0), Card(10, 1), Card(5, 2)]) == 25
    ensures Score([Card(1, 0), Card(9, 0), Card(1, 1)]) == 21
    ensures Score([Card(13, 0), Card(1, 0), Card(1, 1)]) == 22
    ensures BestTotal([Card(13, 0), Card(1, 0), Card(1, 1)]) == 12
    ensures Score([Card(7, 0), Card(7, 1), Card(7, 2)]) == 21
    ensures !IsBlackjack([Card(7, 0), Card(7, 1), Card(7, 2)])
  {
    TallyTriple(Card(7, 0), Card(7, 1), Card(7, 2), AcePoint);
    TallyTriple(Card(7, 0), Card(7, 1), Card(7, 2), NonAcePoints);
    TallyPair(Card(1, 0), Card(13, 0), AcePoint);
    TallyPair(Card(1, 0), Card(13, 0), NonAcePoints);
    TallyPair(Card(1, 0), Card(1, 1), AcePoint);
    TallyPair(Card(1, 0), Card(1, 1), NonAcePoints);
    TallyTriple(Card(1, 0), Card(1, 1), Card(1, 2), AcePoint);
    TallyTriple(Card(1, 0), Card(1, 1), Card(1, 2), NonAcePoints);
    TallyTriple(Card(10, 0), Card(10, 1), Card(5, 2), AcePoint);
    TallyTriple(Card(10, 0), Card(10, 1), Card(5, 2), NonAcePoints);
    TallyTriple(Card(1, 0), Card(9, 0), Card(1, 1), AcePoint);
    TallyTriple(Card(1, 0), Card(9, 0), Card(1, 1), NonAcePoints);
    TallyTriple(Card(13, 0), Card(1, 0), Card(1, 1), AcePoint);
    TallyTriple(Card(13, 0), Card(1, 0), Card(1, 1), NonAcePoints);
  }
}
