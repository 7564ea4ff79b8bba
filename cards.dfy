/**
 * The 52 playing cards of the game: ranks, suits, the suit order of the
 * foundation piles and the red/black table that the tableau rule consults.
 */
module PlayingCards {

  datatype Suit = Spades | Hearts | Diamonds | Clubs

  /** A card's `value`: Ace is 1, Jack 11, Queen 12, King 13. */
  type Rank = r: int | 1 <= r <= 13 witness 1

  /** A card's identity; everything a card's placement says lives elsewhere. */
  datatype Card = Card(value: Rank, symbol: Suit)

  const Ace: Rank := 1
  const King: Rank := 13

  /** The order of `suits`, which is also the order of the four foundation piles. */
  const Suits: seq<Suit> := [Spades, Hearts, Diamonds, Clubs]

  /** `suits.index(symbol)`: the foundation pile that collects a suit. */
  function SuitIndex(s: Suit): (i: nat)
    ensures i < |Suits| && Suits[i] == s
    ensures forall j :: 0 <= j < |Suits| && Suits[j] == s ==> j == i
  {
    match s
    case Spades => 0
    case Hearts => 1
    case Diamonds => 2
    case Clubs => 3
  }

  predicate IsRed(s: Suit) {
    s == Hearts || s == Diamonds
  }

  /** The `oppositeSuits` table: the two suits of the other colour. */
  function OppositeSuits(s: Suit): (r: seq<Suit>)
    ensures |r| == 2 && r[0] != r[1]
    ensures forall t :: t in r <==> IsRed(t) != IsRed(s)
  {
    match s
    case Spades => [Hearts, Diamonds]
    case Hearts => [Spades, Clubs]
    case Diamonds => [Spades, Clubs]
    case Clubs => [Hearts, Diamonds]
  }

  /** The tableau rule: `card` may lie on `onto` (one rank lower, other colour). */
  predicate Stacks(card: Card, onto: Card) {
    onto.value - 1 == card.value && onto.symbol in OppositeSuits(card.symbol)
  }

  /** The foundation rule: `card` may lie on `onto` (one rank higher, same suit). */
  predicate Builds(card: Card, onto: Card) {
    onto.value == card.value - 1 && onto.symbol == card.symbol
  }

  /** Where a card is created in `initCards`: suit by suit, Ace to King. */
  function DeckIndex(c: Card): (k: nat)
    ensures k < 52
  {
    13 * SuitIndex(c.symbol) + c.value - 1
  }

  function CardAt(k: nat): (c: Card)
    requires k < 52
    ensures DeckIndex(c) == k
  {
    Card(k % 13 + 1, Suits[k / 13])
  }

  lemma CardAtDeckIndex(c: Card)
    ensures CardAt(DeckIndex(c)) == c
  {
    var k := DeckIndex(c);
    assert k / 13 == SuitIndex(c.symbol) && k % 13 == c.value - 1;
  }

  /** The 52 cards in the order `initCards` creates them. */
  function FullDeck(): (d: seq<Card>)
    ensures |d| == 52
    ensures forall k :: 0 <= k < 52 ==> d[k] == CardAt(k)
  {
    seq(52, k requires 0 <= k < 52 => CardAt(k))
  }

  /** `initCards` creates rank r + 1 of suit i as card 13 * i + r of the deck. */
  lemma DeckGrows(i: int, r: int)
    requires 0 <= i < 4 && 0 <= r < 13
    ensures Card(r + 1, Suits[i]) == FullDeck()[13 * i + r]
    ensures FullDeck()[..13 * i + r + 1] == FullDeck()[..13 * i + r] + [Card(r + 1, Suits[i])]
  {
    var k := 13 * i + r;
    assert k % 13 == r && k / 13 == i;
    assert FullDeck()[..k + 1] == FullDeck()[..k] + [FullDeck()[k]];
  }

  /** The deck holds every card, and holds it once. */
  lemma FullDeckOnce(c: Card)
    ensures multiset(FullDeck())[c] == 1
  {
    var d := FullDeck();
    var k := DeckIndex(c);
    CardAtDeckIndex(c);
    assert d[k] == c;
    assert d == d[..k] + [c] + d[k + 1..];
    forall j | 0 <= j < 52 && j != k
      ensures d[j] != c
    {
      assert DeckIndex(d[j]) == j;
    }
    assert c !in d[..k] && c !in d[k + 1..];
    calc {
      multiset(d)[c];
      multiset(d[..k])[c] + multiset([c])[c] + multiset(d[k + 1..])[c];
      0 + 1 + 0;
    }
  }
}
