/**
 * One round of blackjack (`Game`): the starting deal, the blackjack
 * short-circuit, the player's hit/stay loop, the dealer's fixed policy and
 * the settlement.
 */
module Blackjack {
  import opened Wrappers
  import opened Cards
  import opened Scoring
  import opened Decks

  datatype Outcome = PlayerBlackjack | DealerBlackjack | Push | PlayerWin | PlayerLoss

  /** What `play` returns, in units of half the bet: a blackjack pays 1.5 bets. */
  function HalfBets(o: Outcome): int {
    match o
    case PlayerBlackjack => 3
    case PlayerWin => 2
    case Push => 0
    case DealerBlackjack => -2
    case PlayerLoss => -2
  }

  /** Only "H" and "h" ask for a card; every other answer stays. */
  predicate IsHit(choice: string) {
    choice == "H" || choice == "h"
  }

  /** The player's k-th answer. Past the last one the console read fails,
      and a failed read yields the empty line. */
  function Input(choices: seq<string>, k: nat): string {
    if k < |choices| then choices[k] else ""
  }

  lemma ValidSuffix(s: seq<Card>, n: nat)
    requires ValidCards(s) && n <= |s|
    ensures ValidCards(s[n..])
  {
  }

  // ---------------------------------------------------------------- player turn

  /** How many cards the player's turn takes from the front of `deck`, or
      None when a requested card is not there (the source's deal panics). */
  function PlayerTurnCards(choices: seq<string>, hand: seq<Card>, deck: seq<Card>): (r: Option<nat>)
    ensures r.Some? ==> r.value <= |deck| && r.value <= |choices|
    decreases |deck|
  {
    if choices == [] || !IsHit(choices[0]) then Some(0)
    else if deck == [] then None
    else if Score(hand + [deck[0]]) >= 21 then Some(1)
    else match PlayerTurnCards(choices[1..], hand + [deck[0]], deck[1..])
      case None => None
      case Some(h) => Some(h + 1)
  }

  /** If the player's turn takes h cards, the first h answers are hits, the
      hand stays below 21 after every hit but the last, and the turn then
      stops: at 21 or more after a hit, or on an answer that is not a hit. */
  lemma {:induction false} PlayerTurnCardsSpec(choices: seq<string>, hand: seq<Card>, deck: seq<Card>, h: nat)
    requires PlayerTurnCards(choices, hand, deck) == Some(h)
    ensures h <= |deck| && h <= |choices|
    ensures forall k :: 0 <= k < h ==> IsHit(choices[k])
    ensures forall k :: 0 < k < h ==> Score(hand + deck[..k]) < 21
    ensures (h > 0 && Score(hand + deck[..h]) >= 21) || !IsHit(Input(choices, h))
    decreases |deck|
  {
    if choices == [] || !IsHit(choices[0]) {
    } else if Score(hand + [deck[0]]) >= 21 {
      assert deck[..1] == [deck[0]];
    } else {
      var hand', deck' := hand + [deck[0]], deck[1..];
      var h' := h - 1;
      PlayerTurnCardsSpec(choices[1..], hand', deck', h');
      forall k | 0 <= k < h ensures IsHit(choices[k]) {
        if k > 0 { assert choices[k] == choices[1..][k - 1]; }
      }
      forall k | 0 < k <= h ensures hand + deck[..k] == hand' + deck'[..k - 1] {
        assert deck[..k] == [deck[0]] + deck'[..k - 1];
      }
      assert deck[..1] == [deck[0]];
      assert Input(choices, h) == Input(choices[1..], h');
    }
  }

  /** Conversely, a count h meeting those conditions is the one the turn takes. */
  lemma {:induction false} PlayerTurnCardsComplete(choices: seq<string>, hand: seq<Card>, deck: seq<Card>, h: nat)
    requires h <= |deck| && h <= |choices|
    requires forall k :: 0 <= k < h ==> IsHit(choices[k])
    requires forall k :: 0 < k < h ==> Score(hand + deck[..k]) < 21
    requires (h > 0 && Score(hand + deck[..h]) >= 21) || !IsHit(Input(choices, h))
    ensures PlayerTurnCards(choices, hand, deck) == Some(h)
    decreases h
  {
    if h > 0 {
      assert IsHit(choices[0]);
      var hand', deck' := hand + [deck[0]], deck[1..];
      assert deck[..1] == [deck[0]];
      if h > 1 {
        assert Score(hand + deck[..1]) < 21;
      }
      if Score(hand') < 21 {
        forall k | 0 <= k <= h - 1 ensures hand + deck[..k + 1] == hand' + deck'[..k] {
          assert deck[..k + 1] == [deck[0]] + deck'[..k];
        }
        forall k | 0 <= k < h - 1 ensures IsHit(choices[1..][k]) {
          assert choices[1..][k] == choices[k + 1];
        }
        assert Input(choices, h) == Input(choices[1..], h - 1);
        PlayerTurnCardsComplete(choices[1..], hand', deck', h - 1);
      }
    }
  }

  /** One iteration of the player's loop: a hit takes the front card, and
      the turn either ends on that card or goes on with the rest. */
  lemma PlayerHitStep(choices: seq<string>, hand: seq<Card>, deck: seq<Card>)
    requires PlayerTurnCards(choices, hand, deck).Some?
    requires IsHit(Input(choices, 0))
    ensures |choices| >= 1 && |deck| >= 1
    ensures Score(hand + [deck[0]]) >= 21 ==> PlayerTurnCards(choices, hand, deck) == Some(1)
    ensures Score(hand + [deck[0]]) < 21 ==>
      PlayerTurnCards(choices[1..], hand + [deck[0]], deck[1..]).Some? &&
      PlayerTurnCards(choices, hand, deck).value == 1 + PlayerTurnCards(choices[1..], hand + [deck[0]], deck[1..]).value
  {
  }

  /** With cards of the deck, a turn starting from hard total T needs at most
      max(1, 21 - T) cards, so a deck of that many never runs out. */
  lemma {:induction false} PlayerTurnFitsDeck(choices: seq<string>, hand: seq<Card>, deck: seq<Card>)
    requires ValidCards(deck) && 1 <= |deck| && HardTotal(hand) + |deck| >= 21
    ensures PlayerTurnCards(choices, hand, deck).Some?
    ensures PlayerTurnCards(choices, hand, deck).value <= if HardTotal(hand) >= 20 then 1 else 21 - HardTotal(hand)
    decreases |deck|
  {
    if choices == [] || !IsHit(choices[0]) {
    } else {
      var c := deck[0];
      assert c in deck;
      DrawRaisesHardTotal(hand, c);
      var hand' := hand + [c];
      if Score(hand') < 21 {
        ScoreClosedForm(hand');
        ValidSuffix(deck, 1);
        PlayerTurnFitsDeck(choices[1..], hand', deck[1..]);
      }
    }
  }

  // ---------------------------------------------------------------- dealer turn

  /** How many cards the dealer draws from the front of `deck`, or None when
      the deck runs out first. */
  function DealerDraws(hand: seq<Card>, deck: seq<Card>): (r: Option<nat>)
    ensures r.Some? ==> r.value <= |deck|
    decreases |deck|
  {
    if !ShouldDealerHit(hand) then Some(0)
    else if deck == [] then None
    else match DealerDraws(hand + [deck[0]], deck[1..])
      case None => None
      case Some(g) => Some(g + 1)
  }

  /** If the dealer draws g cards, each of the hands before the g-th draw
      scores 16 or less and the hand after it scores 17 or more. */
  lemma {:induction false} DealerDrawsSpec(hand: seq<Card>, deck: seq<Card>, g: nat)
    requires DealerDraws(hand, deck) == Some(g)
    ensures g <= |deck|
    ensures forall k :: 0 <= k < g ==> ShouldDealerHit(hand + deck[..k])
    ensures !ShouldDealerHit(hand + deck[..g]) && Score(hand + deck[..g]) >= 17
    decreases |deck|
  {
    if !ShouldDealerHit(hand) {
      assert hand + deck[..0] == hand;
    } else {
      var hand', deck' := hand + [deck[0]], deck[1..];
      DealerDrawsSpec(hand', deck', g - 1);
      forall k | 0 < k <= g ensures hand + deck[..k] == hand' + deck'[..k - 1] {
        assert deck[..k] == [deck[0]] + deck'[..k - 1];
      }
      assert hand + deck[..0] == hand;
    }
  }

  /** Conversely, a count g meeting those conditions is the one the dealer draws. */
  lemma {:induction false} DealerDrawsComplete(hand: seq<Card>, deck: seq<Card>, g: nat)
    requires g <= |deck|
    requires forall k :: 0 <= k < g ==> ShouldDealerHit(hand + deck[..k])
    requires !ShouldDealerHit(hand + deck[..g])
    ensures DealerDraws(hand, deck) == Some(g)
    decreases g
  {
    assert hand + deck[..0] == hand;
    if g > 0 {
      var hand', deck' := hand + [deck[0]], deck[1..];
      forall k | 0 <= k <= g - 1 ensures hand + deck[..k + 1] == hand' + deck'[..k] {
        assert deck[..k + 1] == [deck[0]] + deck'[..k];
      }
      DealerDrawsComplete(hand', deck', g - 1);
    }
  }

  /** With cards of the deck, the dealer starting from hard total T draws at
      most max(0, 17 - T) cards. */
  lemma {:induction false} DealerDrawsFitDeck(hand: seq<Card>, deck: seq<Card>)
    requires ValidCards(deck) && HardTotal(hand) + |deck| >= 17
    ensures DealerDraws(hand, deck).Some?
    ensures DealerDraws(hand, deck).value <= if HardTotal(hand) >= 17 then 0 else 17 - HardTotal(hand)
    decreases |deck|
  {
    ScoreClosedForm(hand);
    if ShouldDealerHit(hand) {
      var c := deck[0];
      assert c in deck;
      DrawRaisesHardTotal(hand, c);
      ValidSuffix(deck, 1);
      DealerDrawsFitDeck(hand + [c], deck[1..]);
    }
  }

  // ---------------------------------------------------------------- the round

  /** The blackjack check made before any turn. */
  function StartOutcome(player: seq<Card>, dealer: seq<Card>): Option<Outcome> {
    var playerHasBlackjack := IsBlackjack(player);
    var dealerHasBlackjack := IsBlackjack(dealer);
    if playerHasBlackjack && !dealerHasBlackjack then Some(PlayerBlackjack)
    else if playerHasBlackjack && dealerHasBlackjack then Some(Push)
    else if dealerHasBlackjack then Some(DealerBlackjack)
    else None
  }

  /** The settlement read off `isPlayerWinner`. */
  function WinnerOutcome(isWinner: int): Outcome {
    if isWinner == 1 then PlayerWin else if isWinner == 0 then Push else PlayerLoss
  }

  /** The state at the end of a round. */
  datatype Table = Table(outcome: Outcome, player: seq<Card>, dealer: seq<Card>, deck: seq<Card>)

  /** Two starting hands and a remaining deck of cards of the game, deep
      enough for both turns: the player takes at most 19 cards and the dealer
      at most 15 (`PlayerTurnFitsDeck`, `DealerDrawsFitDeck`). */
  predicate Dealable(dealer: seq<Card>, player: seq<Card>, rest: seq<Card>) {
    ValidCards(dealer) && ValidCards(player) && ValidCards(rest)
    && |dealer| == 2 && |player| == 2 && |rest| >= 34
  }

  /** A round played from the starting hands on: the reference that `play` is proved against. */
  function Round(dealer0: seq<Card>, player0: seq<Card>, rest: seq<Card>, choices: seq<string>): Table
    requires Dealable(dealer0, player0, rest)
  {
    match StartOutcome(player0, dealer0)
    case Some(o) => Table(o, player0, dealer0, rest)
    case None =>
      HandBounds(player0);
      PlayerTurnFitsDeck(choices, player0, rest);
      var h := PlayerTurnCards(choices, player0, rest).value;
      var player := player0 + rest[..h];
      var rest' := rest[h..];
      if h > 0 && Score(player) > 21 then Table(PlayerLoss, player, dealer0, rest')
      else
        HandBounds(dealer0);
        ValidSuffix(rest, h);
        DealerDrawsFitDeck(dealer0, rest');
        var g := DealerDraws(dealer0, rest').value;
        var dealer := dealer0 + rest'[..g];
        Table(WinnerOutcome(IsPlayerWinner(player, dealer)), player, dealer, rest'[g..])
  }

  /** A blackjack settles the round before either turn: player only pays
      1.5 bets, both push, dealer only loses the bet. */
  lemma RoundBlackjack(dealer0: seq<Card>, player0: seq<Card>, rest: seq<Card>, choices: seq<string>)
    requires Dealable(dealer0, player0, rest)
    requires IsBlackjack(player0) || IsBlackjack(dealer0)
    ensures var t := Round(dealer0, player0, rest, choices);
      t.player == player0 && t.dealer == dealer0 && t.deck == rest
      && (IsBlackjack(player0) && !IsBlackjack(dealer0) ==> t.outcome == PlayerBlackjack && HalfBets(t.outcome) == 3)
      && (IsBlackjack(player0) && IsBlackjack(dealer0) ==> t.outcome == Push && HalfBets(t.outcome) == 0)
      && (!IsBlackjack(player0) && IsBlackjack(dealer0) ==> t.outcome == DealerBlackjack && HalfBets(t.outcome) == -2)
  {
  }

  /** Cards only move from the front of the deck to the ends of the hands. */
  lemma RoundConservesCards(dealer0: seq<Card>, player0: seq<Card>, rest: seq<Card>, choices: seq<string>)
    requires Dealable(dealer0, player0, rest)
    ensures var t := Round(dealer0, player0, rest, choices);
      |player0| <= |t.player| && t.player[..|player0|] == player0
      && |dealer0| <= |t.dealer| && t.dealer[..|dealer0|] == dealer0
      && t.player[|player0|..] + t.dealer[|dealer0|..] + t.deck == rest
  {
    var t := Round(dealer0, player0, rest, choices);
    if StartOutcome(player0, dealer0).None? {
      HandBounds(player0);
      PlayerTurnFitsDeck(choices, player0, rest);
      var h := PlayerTurnCards(choices, player0, rest).value;
      assert (player0 + rest[..h])[|player0|..] == rest[..h];
      var rest' := rest[h..];
      if !(h > 0 && Score(player0 + rest[..h]) > 21) {
        HandBounds(dealer0);
        ValidSuffix(rest, h);
        DealerDrawsFitDeck(dealer0, rest');
        var g := DealerDraws(dealer0, rest').value;
        assert (dealer0 + rest'[..g])[|dealer0|..] == rest'[..g];
        assert rest[..h] + rest'[..g] + rest'[g..] == rest;
      } else {
        assert t.dealer[|dealer0|..] == [];
        assert rest[..h] + rest[h..] == rest;
      }
    } else {
      assert t.player[|player0|..] == [] && t.dealer[|dealer0|..] == [];
    }
  }

  /** A player who busts loses the bet, and the dealer does not draw. */
  lemma RoundPlayerBust(dealer0: seq<Card>, player0: seq<Card>, rest: seq<Card>, choices: seq<string>)
    requires Dealable(dealer0, player0, rest)
    requires !IsBlackjack(player0) && !IsBlackjack(dealer0)
    requires Score(Round(dealer0, player0, rest, choices).player) > 21
    ensures Round(dealer0, player0, rest, choices).outcome == PlayerLoss
    ensures Round(dealer0, player0, rest, choices).dealer == dealer0
  {
    TwoCardsNeverBust(player0);
    HandBounds(player0);
    PlayerTurnFitsDeck(choices, player0, rest);
    var h := PlayerTurnCards(choices, player0, rest).value;
    assert player0 + rest[..0] == player0;
  }

  /** When the player stands without busting, the dealer ends on 17 or more
      and the round is a push on equal scores, a win when the dealer busts
      or scores lower, and a loss when the dealer scores higher without
      busting. */
  lemma RoundSettled(dealer0: seq<Card>, player0: seq<Card>, rest: seq<Card>, choices: seq<string>)
    requires Dealable(dealer0, player0, rest)
    requires !IsBlackjack(player0) && !IsBlackjack(dealer0)
    requires Score(Round(dealer0, player0, rest, choices).player) <= 21
    ensures var t := Round(dealer0, player0, rest, choices);
      var p, d := Score(t.player), Score(t.dealer);
      d >= 17
      && (t.outcome == Push <==> p == d)
      && (t.outcome == PlayerWin <==> p != d && (d > 21 || p > d))
      && (t.outcome == PlayerLoss <==> d <= 21 && p < d)
  {
    HandBounds(player0);
    PlayerTurnFitsDeck(choices, player0, rest);
    var h := PlayerTurnCards(choices, player0, rest).value;
    var rest' := rest[h..];
    HandBounds(dealer0);
    ValidSuffix(rest, h);
    DealerDrawsFitDeck(dealer0, rest');
    var g := DealerDraws(dealer0, rest').value;
    DealerDrawsSpec(dealer0, rest', g);
  }

  // ---------------------------------------------------------------- scenarios

  /** A-K against 9-7: a blackjack paid at once, no turn played. */
  lemma ScenarioNaturalBlackjack(rest: seq<Card>, choices: seq<string>)
    requires ValidCards(rest) && |rest| >= 34
    ensures var t := Round([Card(9, 0), Card(7, 1)], [Card(1, 2), Card(13, 3)], rest, choices);
      t.outcome == PlayerBlackjack && HalfBets(t.outcome) == 3
      && t.player == [Card(1, 2), Card(13, 3)] && t.deck == rest
  {
    TallyPair(Card(1, 2), Card(13, 3), AcePoint);
    TallyPair(Card(1, 2), Card(13, 3), NonAcePoints);
    TallyPair(Card(9, 0), Card(7, 1), AcePoint);
    TallyPair(Card(9, 0), Card(7, 1), NonAcePoints);
  }

  /** 10-6 hits and draws a 5: 21, and the turn ends without another answer. */
  lemma ScenarioHitTo21(more: seq<string>, rest: seq<Card>)
    ensures Score([Card(10, 0), Card(6, 1), Card(5, 2)]) == 21
    ensures PlayerTurnCards(["h"] + more, [Card(10, 0), Card(6, 1)], [Card(5, 2)] + rest) == Some(1)
  {
    assert [Card(10, 0), Card(6, 1)] + [Card(5, 2)] == [Card(10, 0), Card(6, 1), Card(5, 2)];
    TallyTriple(Card(10, 0), Card(6, 1), Card(5, 2), AcePoint);
    TallyTriple(Card(10, 0), Card(6, 1), Card(5, 2), NonAcePoints);
  }

  /** 10-9 stays at 19; the dealer's 10-5 draws a king, busts at 25, and the player wins. */
  lemma ScenarioDealerBusts(rest: seq<Card>)
    requires ValidCards(rest) && |rest| >= 35
    ensures var t := Round([Card(10, 0), Card(5, 1)], [Card(10, 2), Card(9, 3)], [Card(13, 0)] + rest, ["S"]);
      t.outcome == PlayerWin && t.player == [Card(10, 2), Card(9, 3)]
      && t.dealer == [Card(10, 0), Card(5, 1), Card(13, 0)] && t.deck == rest
  {
    var d0, p0, deck := [Card(10, 0), Card(5, 1)], [Card(10, 2), Card(9, 3)], [Card(13, 0)] + rest;
    assert ValidCards(deck) by {
      forall c | c in deck ensures ValidCard(c) { if c != Card(13, 0) { assert c in rest; } }
    }
    TallyPair(d0[0], d0[1], AcePoint);
    TallyPair(d0[0], d0[1], NonAcePoints);
    TallyPair(p0[0], p0[1], AcePoint);
    TallyPair(p0[0], p0[1], NonAcePoints);
    assert PlayerTurnCards(["S"], p0, deck) == Some(0);
    assert p0 + deck[..0] == p0 && deck[0..] == deck;
    var d1 := d0 + [Card(13, 0)];
    assert d1 == [Card(10, 0), Card(5, 1), Card(13, 0)];
    TallyTriple(d1[0], d1[1], d1[2], AcePoint);
    TallyTriple(d1[0], d1[1], d1[2], NonAcePoints);
    assert DealerDraws(d1, rest) == Some(0);
    assert DealerDraws(d0, deck) == Some(1);
    assert deck[..1] == [Card(13, 0)] && deck[1..] == rest;
  }

  // ---------------------------------------------------------------- the game

  class Game {
    const deck: Deck
    var playerCards: seq<Card>
    var dealerCards: seq<Card>

    /** A zero `Game{}`: an empty deck and empty hands. */
    constructor ()
      ensures fresh(deck) && deck.cards == [] && playerCards == [] && dealerCards == []
    {
      deck := new Deck();
      playerCards := [];
      dealerCards := [];
    }

    /** `dealStartingCards`: creates the deck, shuffles it, deals two cards to
        the dealer and then two to the player. The shuffle's random
        permutation is the parameter `shuffled`. */
    method DealStartingCards(shuffled: seq<Card>)
      requires multiset(shuffled) == multiset(deck.cards + StandardDeck())
      modifies this, deck
      ensures |shuffled| == old(|deck.cards|) + 52
      ensures dealerCards == shuffled[..2] && playerCards == shuffled[2..4] && deck.cards == shuffled[4..]
    {
      assert |shuffled| == |multiset(shuffled)| == |deck.cards + StandardDeck()|;
      deck.Create();
      deck.cards := shuffled;
      dealerCards := deck.Deal(2);
      playerCards := deck.Deal(2);
      assert shuffled[2..][..2] == shuffled[2..4] && shuffled[2..][2..] == shuffled[4..];
    }

    /** `playerTurn`: asks for an answer until the player stays or reaches 21
        or more; returns whether the player busted. */
    method PlayerTurn(choices: seq<string>) returns (lost: bool)
      requires PlayerTurnCards(choices, playerCards, deck.cards).Some?
      modifies this, deck
      ensures var h := PlayerTurnCards(choices, old(playerCards), old(deck.cards)).value;
        h <= |old(deck.cards)|
        && playerCards == old(playerCards) + old(deck.cards)[..h]
        && deck.cards == old(deck.cards)[h..]
        && lost == (h > 0 && Score(playerCards) > 21)
      ensures dealerCards == old(dealerCards)
    {
      ghost var h := PlayerTurnCards(choices, playerCards, deck.cards).value;
      var k := 0;
      while IsHit(Input(choices, k))
        invariant k <= |choices| && k <= |old(deck.cards)|
        invariant playerCards == old(playerCards) + old(deck.cards)[..k]
        invariant deck.cards == old(deck.cards)[k..]
        invariant dealerCards == old(dealerCards)
        invariant PlayerTurnCards(choices[k..], playerCards, deck.cards).Some?
        invariant h == k + PlayerTurnCards(choices[k..], playerCards, deck.cards).value
        invariant k > 0 ==> Score(playerCards) < 21
        decreases |deck.cards|
      {
        PlayerHitStep(choices[k..], playerCards, deck.cards);
        assert choices[k..][1..] == choices[k + 1..];
        var dealt := deck.Deal(1);
        var card := dealt[0];
        playerCards := playerCards + [card];
        assert old(deck.cards)[..k + 1] == old(deck.cards)[..k] + [card];
        k := k + 1;
        var value := GetCardValues(playerCards);
        if value > 21 {
          return true;
        } else if value == 21 {
          return false;
        }
      }
      return false;
    }

    /** `dealerTurn`: the dealer draws while `shouldDealerHit` holds. */
    method DealerTurn()
      requires DealerDraws(dealerCards, deck.cards).Some?
      modifies this, deck
      ensures var g := DealerDraws(old(dealerCards), old(deck.cards)).value;
        g <= |old(deck.cards)|
        && dealerCards == old(dealerCards) + old(deck.cards)[..g]
        && deck.cards == old(deck.cards)[g..]
      ensures !ShouldDealerHit(dealerCards)
      ensures playerCards == old(playerCards)
    {
      ghost var total := DealerDraws(dealerCards, deck.cards).value;
      DealerDrawsSpec(dealerCards, deck.cards, total);
      ghost var g := 0;
      while ShouldDealerHit(dealerCards)
        invariant g <= |old(deck.cards)|
        invariant dealerCards == old(dealerCards) + old(deck.cards)[..g]
        invariant deck.cards == old(deck.cards)[g..]
        invariant playerCards == old(playerCards)
        invariant DealerDraws(dealerCards, deck.cards).Some?
        invariant total == g + DealerDraws(dealerCards, deck.cards).value
        decreases |deck.cards|
      {
        var dealt := deck.Deal(1);
        var card := dealt[0];
        dealerCards := dealerCards + [card];
        assert old(deck.cards)[..g + 1] == old(deck.cards)[..g] + [card];
        g := g + 1;
      }
    }

    /** `play`: one round from a fresh deck. The outcome and the half-bets
        won or lost are those of Round on the shuffled deck. */
    method Play(shuffled: seq<Card>, choices: seq<string>) returns (o: Outcome, halfBets: int)
      requires ValidCards(deck.cards)
      requires multiset(shuffled) == multiset(deck.cards + StandardDeck())
      modifies this, deck
      ensures |shuffled| == old(|deck.cards|) + 52
      ensures Dealable(shuffled[..2], shuffled[2..4], shuffled[4..])
      ensures var t := Round(shuffled[..2], shuffled[2..4], shuffled[4..], choices);
        o == t.outcome && playerCards == t.player && dealerCards == t.dealer && deck.cards == t.deck
      ensures halfBets == HalfBets(o)
    {
      ShuffledCardsValid(shuffled, deck.cards);
      DealStartingCards(shuffled);
      ghost var dealer0, player0, rest := dealerCards, playerCards, deck.cards;
      assert ValidCards(dealer0) && ValidCards(player0) && ValidCards(rest) by {
        assert shuffled == dealer0 + player0 + rest;
        forall c | c in dealer0 + player0 + rest ensures ValidCard(c) { assert c in shuffled; }
      }
      var playerHasBlackjack := IsBlackjack(playerCards);
      var dealerHasBlackjack := IsBlackjack(dealerCards);
      if playerHasBlackjack && !dealerHasBlackjack {
        o := PlayerBlackjack;
      } else if playerHasBlackjack && dealerHasBlackjack {
        o := Push;
      } else if dealerHasBlackjack {
        o := DealerBlackjack;
      } else {
        HandBounds(playerCards);
        PlayerTurnFitsDeck(choices, playerCards, deck.cards);
        var lost := PlayerTurn(choices);
        if lost {
          o := PlayerLoss;
        } else {
          HandBounds(dealerCards);
          ghost var h := PlayerTurnCards(choices, player0, rest).value;
          ValidSuffix(rest, h);
          DealerDrawsFitDeck(dealerCards, deck.cards);
          DealerTurn();
          var isWinner := IsPlayerWinner(playerCards, dealerCards);
          if isWinner == 1 {
            o := PlayerWin;
          } else if isWinner == 0 {
            o := Push;
          } else {
            o := PlayerLoss;
          }
        }
      }
      halfBets := HalfBets(o);
    }
  }

  /** A permutation of the old deck plus a new standard deck holds only cards of the game. */
  lemma ShuffledCardsValid(shuffled: seq<Card>, before: seq<Card>)
    requires ValidCards(before)
    requires multiset(shuffled) == multiset(before + StandardDeck())
    ensures ValidCards(shuffled)
  {
    StandardDeckComplete();
    forall c | c in shuffled ensures ValidCard(c) {
      assert c in multiset(before + StandardDeck());
      assert c in before + StandardDeck();
    }
  }
}
