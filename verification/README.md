# Blackjack engine, modelled in Dafny

This project models the engine of a console blackjack game (`main.go`): a
single player against a dealer who follows a fixed policy, one round per bet.

- **Cards** (`cards.dfy`): a card is a pair of integers, `value` 1..13
  (1 the ace, 11/12/13 jack, queen, king) and `suit` 0..3 (spades, hearts,
  diamonds, clubs). `CardString` is `Card.getString`. It is proved
  injective on the four suits through a parser that inverts it.
- **Scoring** (`scoring.dfy`): `Score` is `getCardValues` exactly as written.
  Each non-ace counts `min(10, value)`. When the hand holds `a > 0` aces and
  the non-ace sum is below `10 + a`, the score is that sum plus `10 + a`;
  otherwise it is the sum plus `a`. `GetCardValues` is the source's loop,
  proved to compute `Score`. `BestTotal` is the usual blackjack count (one
  ace as 11 when that stays at 21 or below). `ScoreVersusBestTotal`
  pins down exactly where the two differ. That happens only with two or
  more aces, and then the source's score is over 21. K-A-A scores 22, not 12.
  `IsBlackjack`, `ShouldDealerHit` and `IsPlayerWinner` are the three
  predicates over scores.
- **Deck** (`decks.dfy`): class `Deck` with a `cards` sequence. `Create`
  appends the 52 cards in rank-major, suit-minor order (`StandardDeck`).
  `Deal(n)` removes the first `n` cards and returns them.
- **Round** (`blackjack.dfy`): class `Game` with the deck and the two hands.
  `DealStartingCards` gives the dealer cards 0-1 of the shuffled deck and the
  player cards 2-3. `PlayerTurn` reads the player's answers from a sequence;
  after the last answer every read yields the empty line, which means "stay".
  `DealerTurn` draws while the dealer's score is 16 or less. `Play` applies
  the blackjack short-circuit, then the player's bust, then the comparison.
  `Round` is the pure reference that `Play` is proved against. The functions
  `PlayerTurnCards` and `DealerDraws` count the cards each turn takes; they
  yield `None` where the source's deal would index an empty deck.
  `Play` is proved never to reach that case when it starts from any
  permutation of a fresh 52-card deck: the player takes at most 19 cards and
  the dealer at most 15 of the 48 left.

The payout is an `Outcome` plus its value in half-bet units (`HalfBets`):
+3 for a blackjack, +2 for a win, 0 for a push, -2 for a loss.

## Model

| member | source | states |
|---|---|---|
| Cards.NatDecimal | main.go:43-44 | the decimal text of a number is non-empty, all digits, one digit exactly below 10, and has no leading zero (only 0 itself starts with '0') |
| Cards.NatDecimalRoundTrip | main.go:43-44 | reading the decimal text of `n` back gives `n` |
| Cards.IntDecimal | main.go:43-44 | `%d` text: never empty and never starting with a rank letter; a negative number is '-' followed by at least one digit, all digits, no leading zero, reading back to its magnitude; a positive number is all digits with no leading zero reading back to it; 0 is "0" |
| Cards.RankString | main.go:34-45 | the rank text is non-empty and reads back to the value, for every integer value; it is a single letter A, J, Q or K exactly for values 1, 11, 12, 13, and every other value prints as its `%d` text (`IntDecimal`) |
| Cards.SuitString | main.go:23-32 | suits 0..3 give one glyph that reads back to the suit; any other suit gives the empty string |
| Cards.CardString | main.go:19-48 | for suits 0..3, `getString` is exactly the rank text followed by the one suit glyph, and parsing it gives back the card |
| Cards.CardStringInjective | main.go:19-48 | two cards with suits 0..3 and the same display text are the same card |
| Scoring.Score | main.go:199-220 | `getCardValues` as written: non-aces count min(10, value); with a > 0 aces, the non-ace sum plus 10 + a when that sum is below 10 + a, else plus a. Its properties are the lemmas below and GetCardValues |
| Scoring.GetCardValues | main.go:199-220 | the loop counting aces and non-ace points returns `Score` of the hand |
| Scoring.AceCountNonNegative | main.go:200-205 | the ace count lies between 0 and the hand's size |
| Scoring.HandBounds | main.go:203-209 | for cards of the deck, the non-ace sum is 0..10 per non-ace and the hard total between the hand size and 10 times it |
| Scoring.DrawRaisesHardTotal | main.go:203-209 | adding a card of the deck raises the hard total by 1 to 10 |
| Scoring.TallyPermutation | main.go:203-209 | any per-card sum over the hand is the same for every ordering of the same cards |
| Scoring.ScoreOrderIndependent | main.go:199-220 | two hands holding the same cards in any order score the same |
| Scoring.ScoreClosedForm | main.go:211-219 | the score is the hard total, plus 10 exactly when there is an ace and the non-ace sum is below 10 + aces; never below the hard total |
| Scoring.ScoreVersusBestTotal | main.go:211-219 | the score differs from the usual count iff there are at least 2 aces and 12 - aces <= non-ace sum < 10 + aces; it then exceeds 21 by adding 10 too many; every score of 21 or less is the usual count |
| Scoring.TwoCardsNeverBust | main.go:199-220 | two cards of the deck score at most 21 |
| Scoring.ScoreExamples | main.go:199-220 | A-K 21, A-A 12, A-A-A 13, 10-10-5 25, A-9-A 21, K-A-A 22 (usual count 12); 7-7-7 scores 21 but is no blackjack |
| Scoring.IsBlackjack | main.go:240-243 | `isBlackjack`: a score of 21 with exactly two cards. BlackjackIsAceAndTen and ScoreExamples state what that means |
| Scoring.BlackjackIsAceAndTen | main.go:240-243 | a hand of deck cards is a blackjack iff it has two cards, one an ace and the other ten-valued |
| Scoring.ShouldDealerHit | main.go:235-238 | `shouldDealerHit`: a score of 16 or less. DealerDrawsSpec, DealerDrawsComplete and Game.DealerTurn prove the dealer draws exactly while it holds and stands on 17 or more |
| Scoring.IsPlayerWinner | main.go:222-233 | `isPlayerWinner`: 0 on equal scores, else 1 when the player is higher or the dealer is over 21, else -1. WinnerAntisymmetric, DealerBustPaysPlayer and WinnerAloneIgnoresPlayerBust state its properties |
| Scoring.WinnerAntisymmetric | main.go:222-233 | between non-bust hands the result is 0/1/-1 iff equal/higher/lower, and swapping the hands negates it |
| Scoring.DealerBustPaysPlayer | main.go:222-233 | a dealer score over 21 gives 1 unless both scores are equal |
| Scoring.WinnerAloneIgnoresPlayerBust | main.go:222-233 | the comparison alone returns 1 for a busted 25 against a dealer's 19 |
| Decks.StandardDeck | main.go:66-73 | the cards `create` appends: 52 cards, only cards with value 1..13 and suit 0..3, each earlier card before each later one by value, then suit |
| Decks.StandardDeckComplete | main.go:66-73 | the created deck has 52 cards and holds every card with value 1..13 and suit 0..3 |
| Decks.StandardDeckOnceEach | main.go:66-73 | each of the 52 cards occurs exactly once |
| Decks.Deck.constructor | main.go:50-52 | a zero deck holds no cards |
| Decks.Deck.Create | main.go:66-73 | `create` appends the standard deck after the cards already held |
| Decks.Deck.Deal | main.go:54-64 | `deal(n)`, for `n` no larger than the deck, returns the first `n` cards in order and leaves the rest; dealt ++ remaining is the old deck |
| Blackjack.IsHit | main.go:144 | only the answers "H" and "h" ask for a card |
| Blackjack.Input | main.go:185-197 | the player's k-th answer; past the last one, the empty line a failed read returns |
| Blackjack.PlayerTurnCards | main.go:139-164 | how many cards the player's turn takes from the front of the deck, at most the deck's and the answers' length; None where the source's deal would index an empty deck |
| Blackjack.PlayerTurnCardsSpec | main.go:139-164 | if the turn takes h cards, the first h answers are hits, every hand before the last hit scores below 21, and it stops at 21 or more or on an answer that is not a hit |
| Blackjack.PlayerTurnCardsComplete | main.go:139-164 | conversely, any h meeting those conditions (and no larger than the deck and the answers) is the number of cards the turn takes |
| Blackjack.PlayerTurnFitsDeck | main.go:139-164 | from hard total T, with deck cards, the turn takes at most max(1, 21 - T) cards, so such a deck never runs out |
| Blackjack.DealerDraws | main.go:166-183 | how many cards the dealer draws from the front of the deck, at most the deck's length; None where the deck would run out |
| Blackjack.DealerDrawsSpec | main.go:166-183 | if the dealer draws g cards, every hand before the g-th draw scores 16 or less and the final hand 17 or more |
| Blackjack.DealerDrawsComplete | main.go:166-183 | conversely, any g no larger than the deck meeting those conditions is the number of cards the dealer draws |
| Blackjack.DealerDrawsFitDeck | main.go:166-183 | from hard total T the dealer draws at most max(0, 17 - T) deck cards, so such a deck never runs out |
| Blackjack.ShuffledCardsValid | main.go:86-87 | any permutation of the old deck and a new standard deck holds only cards with value 1..13 and suit 0..3 |
| Blackjack.HalfBets | main.go:108-136 | what `play` returns, in half-bets: +3 for a blackjack, +2 for a win, 0 for a push, -2 for a dealer blackjack or a loss |
| Blackjack.StartOutcome | main.go:103-115 | the blackjack check before any turn: player only, both, dealer only, or none |
| Blackjack.WinnerOutcome | main.go:126-136 | `isPlayerWinner`'s 1, 0 and -1 read as win, push and loss |
| Blackjack.Round | main.go:96-137 | the round from the starting hands on: blackjack check, player turn, bust check, dealer turn, comparison; the RoundX lemmas below state its properties, and Game.Play is proved equal to it |
| Blackjack.RoundBlackjack | main.go:103-115 | player-only blackjack pays +1.5 bets, both push, dealer-only loses the bet; no card is drawn |
| Blackjack.RoundPlayerBust | main.go:117-120 | without blackjacks, a busted player loses the bet and the dealer does not draw |
| Blackjack.RoundSettled | main.go:122-136 | otherwise the dealer ends on 17 or more; push iff equal, win iff the dealer busts or scores lower, loss iff the dealer scores higher without busting |
| Blackjack.RoundConservesCards | main.go:96-137 | the hands only grow, and the cards they gained followed by the remaining deck are the deck left after the starting deal |
| Blackjack.ScenarioNaturalBlackjack | main.go:103-108 | A-K against 9-7 pays 1.5 bets at once and leaves the deck untouched |
| Blackjack.ScenarioHitTo21 | main.go:139-161 | 10-6 hitting a 5 scores exactly 21, no bust, and the turn ends after that one card whatever the later answers |
| Blackjack.ScenarioDealerBusts | main.go:117-136 | 10-9 stays; the dealer's 10-5 draws a king to 25 and the player wins |
| Blackjack.Game.constructor | main.go:274 | a zero `Game{}` has an empty deck and empty hands |
| Blackjack.Game.DealStartingCards | main.go:85-89 | after create and shuffle, the dealer holds cards 0-1, the player cards 2-3, the deck the rest |
| Blackjack.Game.PlayerTurn | main.go:139-164 | the player's hand gains the first h deck cards (h from `PlayerTurnCards`), the deck loses them, the dealer's hand is untouched, and the result is "busted after at least one hit" |
| Blackjack.Game.DealerTurn | main.go:166-183 | the dealer's hand gains the first g deck cards (g from `DealerDraws`), and ends with a score of 17 or more |
| Blackjack.Game.Play | main.go:96-137 | from any permutation of the deck plus 52 new cards, the round never deals from an empty deck, ends in `Round`'s outcome and state, and pays its half-bets |

## Left out

- `Deck.shuffle` (main.go:75-77) draws from `math/rand`. The permutation it
  picks is the `shuffled` parameter of `DealStartingCards` and `Play`. The
  only requirement on it is that it has the same multiset of cards.
  Uniformity is not modelled.
- Console input (`enterString`) is the `choices` sequence. An answer is compared
  as the source compares it, against "H" and "h". After the last answer,
  reads yield "", as a failed read does.
- All printing (`displayCards`, the `fmt` calls in `dealStartingCards`, `play`,
  `playerTurn`, `dealerTurn`) and the one-second `time.Sleep` between dealer
  draws: presentation only.
- `main` (main.go:259-279): the balance loop, bet parsing with
  `strconv.ParseFloat`, bet validation and the float balance. `Play` returns
  the payout in half-bet units instead of `bet * 1.5`, `bet`, `0` or `-bet`
  as floats.
- `math.Min(10, float64(value))` in `getCardValues` is integer `min(10, value)`.
- Go's fixed-width `int` is Dafny's unbounded `int`. No hand comes near the
  limit.
- Go strings are UTF-8 bytes (each suit glyph is three bytes), while the
  model's strings are sequences of Unicode code points (each glyph is one
  character). Display text is therefore compared per character, not per byte.
- Decks.Deck.Deal: dealing more cards than the deck holds panics in the
  source (an unchecked `cards[0]`). That panic is a precondition here,
  not an error result. `Play` proves that one round never reaches it.
  The model adds no "deck exhausted" error result.
- Blackjack.Game.Play: it requires that the deck held only cards with value
  1..13 and suit 0..3 before the round. The source only ever plays on a fresh
  `Game{}`, whose deck is empty.
