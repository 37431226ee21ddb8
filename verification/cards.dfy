/**
 * Playing cards and their two-glyph display form (`Card.getString`).
 */
module Cards {
  import opened Wrappers

  /** A card: `value` 1 is the ace, 11, 12 and 13 are jack, queen and king;
      `suit` 0, 1, 2, 3 is spades, hearts, diamonds, clubs. Any integers are
      representable, as in the source's struct of two ints. */
  datatype Card = Card(value: int, suit: int)

  /** A card that the deck can hold. */
  predicate ValidCard(c: Card) {
    1 <= c.value <= 13 && 0 <= c.suit <= 3
  }

  predicate ValidCards(cards: seq<Card>) {
    forall c :: c in cards ==> ValidCard(c)
  }

  /** The suit glyph; a suit outside 0..3 leaves the source's string empty. */
  function SuitString(suit: int): (s: string)
    ensures 0 <= suit <= 3 ==> |s| == 1 && ParseSuit(s[0]) == Some(suit)
    ensures !(0 <= suit <= 3) ==> s == []
  {
    if suit == 0 then "♠"
    else if suit == 1 then "♥"
    else if suit == 2 then "♦"
    else if suit == 3 then "♣"
    else ""
  }

  /** The rank text: a letter for the ace and the face cards, decimal otherwise. */
  function RankString(value: int): (s: string)
    ensures s != []
    ensures ParseRank(s) == Some(value)
    ensures (value == 1 || 11 <= value <= 13) <==> (|s| == 1 && s[0] in "AJQK")
    ensures !(value == 1 || 11 <= value <= 13) ==> s == IntDecimal(value)
  {
    if value == 11 then "J"
    else if value == 12 then "Q"
    else if value == 13 then "K"
    else if value == 1 then "A"
    else
      var d := IntDecimal(value);
      assert d != "A" && d != "J" && d != "Q" && d != "K" by {
        assert d[0] != 'A' && d[0] != 'J' && d[0] != 'Q' && d[0] != 'K';
      }
      d
  }

  /** `Card.getString`: rank text followed by the suit glyph. */
  function CardString(c: Card): (s: string)
    ensures 0 <= c.suit <= 3 ==> ParseCard(s) == Some(c)
    ensures 0 <= c.suit <= 3 ==>
      s[..|s| - 1] == RankString(c.value) && [s[|s| - 1]] == SuitString(c.suit)
  {
    var rank := RankString(c.value);
    var suit := SuitString(c.suit);
    assert 0 <= c.suit <= 3 ==> (rank + suit)[..|rank + suit| - 1] == rank && (rank + suit)[|rank + suit| - 1] == suit[0];
    rank + suit
  }

  predicate IsDigit(ch: char) {
    '0' <= ch <= '9'
  }

  function DigitChar(d: int): (ch: char)
    requires 0 <= d < 10
    ensures IsDigit(ch) && ch as int - '0' as int == d
  {
    (d + '0' as int) as char
  }

  /** Decimal digits of a natural number, most significant first, no leading zeros. */
  function NatDecimal(n: nat): (s: string)
    ensures |s| >= 1
    ensures forall i :: 0 <= i < |s| ==> IsDigit(s[i])
    ensures |s| == 1 <==> n < 10
    ensures n == 0 || s[0] != '0'
    decreases n
  {
    if n < 10 then [DigitChar(n)] else NatDecimal(n / 10) + [DigitChar(n % 10)]
  }

  /** `%d` formatting: a minus sign before the digits of a negative number. */
  function IntDecimal(n: int): (s: string)
    ensures s != [] && s[0] != 'A' && s[0] != 'J' && s[0] != 'Q' && s[0] != 'K'
    ensures n < 0 ==> s[0] == '-' && -ParseNat(s[1..]) == n
    ensures n >= 0 ==> IsDigit(s[0]) && ParseNat(s) == n
    ensures forall i :: (if n < 0 then 1 else 0) <= i < |s| ==> IsDigit(s[i])
    ensures n < 0 ==> |s| >= 2 && s[1] != '0'
    ensures n > 0 ==> s[0] != '0'
    ensures n == 0 ==> s == "0"
  {
    if n < 0 then
      var digits := NatDecimal(-n);
      NatDecimalRoundTrip(-n);
      assert ("-" + digits)[1..] == digits;
      "-" + digits
    else
      NatDecimalRoundTrip(n);
      NatDecimal(n)
  }

  /** Reads decimal digits back, most significant first. */
  function ParseNat(s: string): int {
    if s == [] then 0 else ParseNat(s[..|s| - 1]) * 10 + (s[|s| - 1] as int - '0' as int)
  }

  /** Inverse of RankString. */
  function ParseRank(s: string): Option<int> {
    if s == "A" then Some(1)
    else if s == "J" then Some(11)
    else if s == "Q" then Some(12)
    else if s == "K" then Some(13)
    else if s == [] then None
    else if s[0] == '-' then Some(-ParseNat(s[1..]))
    else Some(ParseNat(s))
  }

  /** Inverse of SuitString on the four suits. */
  function ParseSuit(ch: char): Option<int> {
    if ch == '♠' then Some(0)
    else if ch == '♥' then Some(1)
    else if ch == '♦' then Some(2)
    else if ch == '♣' then Some(3)
    else None
  }

  /** Inverse of CardString: the last character is the suit, the rest the rank. */
  function ParseCard(s: string): Option<Card> {
    if s == [] then None
    else match (ParseRank(s[..|s| - 1]), ParseSuit(s[|s| - 1]))
      case (Some(v), Some(u)) => Some(Card(v, u))
      case _ => None
  }

  lemma {:induction false} NatDecimalRoundTrip(n: nat)
    ensures ParseNat(NatDecimal(n)) == n
    decreases n
  {
    var s := NatDecimal(n);
    if n >= 10 {
      NatDecimalRoundTrip(n / 10);
      assert s[..|s| - 1] == NatDecimal(n / 10);
    }
  }

  /** No two cards of the deck look alike on screen. */
  lemma CardStringInjective(c1: Card, c2: Card)
    requires 0 <= c1.suit <= 3 && 0 <= c2.suit <= 3
    requires CardString(c1) == CardString(c2)
    ensures c1 == c2
  {
  }
}
