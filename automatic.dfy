/**
 * `CheckAutomaticMoves`: a card clicked without dragging goes to the first
 * foundation pile that takes it, else to the first tableau pile that takes
 * it, as a function from one table to the next.
 */
module AutomaticMoves {
  import opened PlayingCards
  import opened Piles
  import opened Containers
  import opened ContainerFacts
  import opened Rules
  import opened CheckMoves

  /** The test of the foundation loop: pile i's top is one rank lower and of the card's suit, or pile i is empty and the card is the Ace of `suits[i]`. */
  predicate FoundationTakes(t: Table, card: Card, i: int)
    requires |t.foundation| == 4 && 0 <= i < 4
  {
    if t.foundation[i] != [] then Builds(card, Last(t.foundation[i]))
    else card.value == Ace && card.symbol == Suits[i]
  }

  /** The test of the tableau loop: pile d's top is one rank higher and of the other colour, or pile d is empty and the card is a King. */
  predicate TableauTakes(t: Table, card: Card, d: int)
    requires |t.tableau| == 7 && 0 <= d < 7
  {
    if t.tableau[d] != [] then Stacks(card, Last(t.tableau[d])) else card.value == King
  }

  /** The first foundation pile from i on that takes the card, or -1. */
  function FoundationFit(t: Table, card: Card, i: int): (r: int)
    requires |t.foundation| == 4 && 0 <= i <= 4
    ensures r == -1 || (i <= r < 4 && FoundationTakes(t, card, r))
    ensures forall j | i <= j < (if r == -1 then 4 else r) :: !FoundationTakes(t, card, j)
    decreases 4 - i
  {
    if i == 4 then -1
    else if FoundationTakes(t, card, i) then i
    else FoundationFit(t, card, i + 1)
  }

  /** The first tableau pile from d on that takes the card, or -1. */
  function TableauFit(t: Table, card: Card, d: int): (r: int)
    requires |t.tableau| == 7 && 0 <= d <= 7
    ensures r == -1 || (d <= r < 7 && TableauTakes(t, card, r))
    ensures forall j | d <= j < (if r == -1 then 7 else r) :: !TableauTakes(t, card, j)
    decreases 7 - d
  {
    if d == 7 then -1
    else if TableauTakes(t, card, d) then d
    else TableauFit(t, card, d + 1)
  }

  /** A waste card under the waste's top. */
  function Hidden(t: Table, card: Card): bool
    requires Inv(t)
  {
    Located(t, multiset{}, card);
    t.place[card].container == Some(Waste) && Last(t.waste[0]) != card
  }

  /** `CheckAutomaticMoves(card)`. */
  function AutoMoved(t: Table, card: Card): (r: Outcome)
    requires Draggable(t, card)
    ensures !r.moved ==> r.table == t
  {
    Located(t, multiset{}, card);
    if Hidden(t, card) then Outcome(false, t)
    else
      var i := if Buried(t, card) then -1 else FoundationFit(t, card, 0);
      if i != -1 then
        Uncovered(t, card);
        RemovedPiles(t, card);
        ToFoundation(t, card, i)
      else
        var d := TableauFit(t, card, 0);
        if d != -1 then
          NotOwnPile(t, card, d);
          Outcome(true, Carry(t, card, d))
        else Outcome(false, t)
  }

  /** On a consistent table, a foundation pile takes exactly the next card of its suit. */
  lemma TakesNext(t: Table, card: Card, i: int)
    requires Inv(t) && 0 <= i < 4
    ensures FoundationTakes(t, card, i) <==> card.symbol == Suits[i] && card.value == |t.foundation[i]| + 1
  {
    var f := t.foundation[i];
    Located(t, multiset{}, card);
    FoundationBottom(t, i);
    assert PileOk(Foundation, t.CardsOf(Foundation)[i], i, t.place);
    if f != [] {
      assert f[|f| - 1] == Last(f);
    }
    if t.place[card].container == Some(Foundation) {
      var j := t.place[card].index;
      var pile := t.foundation[j];
      var p := IndexOf(pile, card);
      assert PileOk(Foundation, t.CardsOf(Foundation)[j], j, t.place);
      assert pile[p] == card;
    }
  }

  /** `CheckAutomaticMoves` keeps the table consistent. */
  lemma AutoMovedKeeps(t: Table, card: Card)
    requires Draggable(t, card)
    ensures Inv(AutoMoved(t, card).table)
  {
    if !Hidden(t, card) && !Buried(t, card) && FoundationFit(t, card, 0) != -1 {
      var i := FoundationFit(t, card, 0);
      TakesNext(t, card, i);
      Uncovered(t, card);
      FoundationSource(t, card);
      RemovedPiles(t, card);
      FoundationDrop(t, card, i);
    }
  }

  /** No foundation pile takes a card that is not the next one of its suit's pile. */
  lemma NoFoundationFit(t: Table, card: Card)
    requires Inv(t) && card.value != |t.foundation[SuitIndex(card.symbol)]| + 1
    ensures FoundationFit(t, card, 0) == -1
  {
    forall i | 0 <= i < 4 ensures !FoundationTakes(t, card, i) {
      TakesNext(t, card, i);
    }
  }

  /** A card with nothing on it that is the next one of its suit goes onto the foundation pile of its suit. */
  lemma AutoToFoundation(t: Table, card: Card)
    requires Draggable(t, card) && !Hidden(t, card) && !Buried(t, card)
    requires card.value == |t.foundation[SuitIndex(card.symbol)]| + 1
    ensures var r, i := AutoMoved(t, card), SuitIndex(card.symbol);
      r.moved && CardMoved(t, r.table, card, Foundation, i) &&
      r.table.place[card] == Put(Foundation, true, i, card.value)
  {
    var i := SuitIndex(card.symbol);
    TakesNext(t, card, i);
    var r := FoundationFit(t, card, 0);
    TakesNext(t, card, r);
    assert r == i;
    Uncovered(t, card);
    FoundationSource(t, card);
    ToFoundationMoves(t, card, i);
  }

  /**
   * Any other card goes, with what lies on it, onto the first tableau pile
   * that takes it.
   */
  lemma AutoToTableau(t: Table, card: Card, d: int)
    requires Draggable(t, card) && !Hidden(t, card)
    requires Buried(t, card) || card.value != |t.foundation[SuitIndex(card.symbol)]| + 1
    requires 0 <= d < 7 && TableauTakes(t, card, d) && forall e | 0 <= e < d :: !TableauTakes(t, card, e)
    ensures var r := AutoMoved(t, card);
      r.moved && GroupMoved(t, r.table, card, d)
  {
    if !Buried(t, card) {
      NoFoundationFit(t, card);
    }
    var r := TableauFit(t, card, 0);
    assert r == d;
  }

  /**
   * `CheckAutomaticMoves` refuses exactly a waste card under the waste's top,
   * and a card that no tableau pile takes and that no foundation pile takes
   * (a card with cards on it never goes to the foundation).
   */
  lemma AutoRefused(t: Table, card: Card)
    requires Draggable(t, card)
    ensures !AutoMoved(t, card).moved <==>
      Hidden(t, card) ||
      ((Buried(t, card) || card.value != |t.foundation[SuitIndex(card.symbol)]| + 1) &&
       forall d | 0 <= d < 7 :: !TableauTakes(t, card, d))
  {
    var i := SuitIndex(card.symbol);
    if !Hidden(t, card) {
      if !Buried(t, card) && card.value == |t.foundation[i]| + 1 {
        AutoToFoundation(t, card);
      } else {
        if !Buried(t, card) {
          NoFoundationFit(t, card);
        }
        var r := TableauFit(t, card, 0);
        if r != -1 {
          assert TableauTakes(t, card, r);
        }
      }
    }
  }
}
