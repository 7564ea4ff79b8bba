/**
 * `CheckMove`: a card dragged onto a card or an empty slot, as a function
 * from one table to the next, with the rule it follows and the consistency
 * it keeps.
 */
module CheckMoves {
  import opened PlayingCards
  import opened Piles
  import opened Containers
  import opened ContainerFacts
  import opened Rules

  /** Where `releaseCard` says a card was dropped: on a card, or on the slot of tableau pile n (0..6) or of foundation pile n - 10 (10..13). */
  datatype Target = OnCard(card: Card) | OnSlot(n: int)

  /** Whether a move was made, and the table after it. */
  datatype Outcome = Outcome(moved: bool, table: Table)

  /** The card lies on top of its pile. */
  ghost predicate OnTop(t: Table, card: Card)
    requires Total(t.place)
  {
    t.place[card].container.Some? &&
    var k, i := t.place[card].container.value, t.place[card].index;
    0 <= i < |t.CardsOf(k)| && t.CardsOf(k)[i] != [] && Last(t.CardsOf(k)[i]) == card
  }

  /**
   * A card the player can drag: it lies in a container, a tableau card is face
   * up (`Tableau.validateMove`), and a foundation card is its pile's top (the
   * others lie hidden under it). A waste card under the waste top is admitted
   * too, although `updateOrder` turns off dragging for it: the predicate is
   * wider than the mouse layer there.
   */
  ghost predicate Draggable(t: Table, card: Card) {
    Inv(t) && t.place[card].container.Some? &&
    0 <= t.place[card].index < |t.CardsOf(t.place[card].container.value)| &&
    (t.place[card].container == Some(Tableau) ==> t.place[card].state == FaceUp) &&
    (t.place[card].container == Some(Foundation) ==> OnTop(t, card))
  }

  /** What `releaseCard` returns as a card: the face-up top of a tableau or foundation pile, not the dragged card. */
  ghost predicate DropTarget(t: Table, card: Card, dest: Target)
    requires Total(t.place)
  {
    dest.OnCard? ==>
      dest.card != card && t.place[dest.card].state == FaceUp && OnTop(t, dest.card) &&
      (t.place[dest.card].container == Some(Tableau) || t.place[dest.card].container == Some(Foundation))
  }

  /** The tableau card has cards on it (`Tableau.cards[card.Index][-1] != card`). */
  function Buried(t: Table, card: Card): bool
    requires Inv(t)
  {
    Located(t, multiset{}, card);
    t.place[card].container == Some(Tableau) && Last(t.tableau[t.place[card].index]) != card
  }

  /** `card.container.removeCard(card)` followed by `Foundation.addCard(card, True, i)`. */
  function ToFoundation(t: Table, card: Card, i: int): (r: Outcome)
    requires Removable(t, card) && 0 <= i < 4 && |Removed(t, card).foundation| == 4
    ensures r.moved && |r.table.foundation| == 4
  {
    Outcome(true, Added(Removed(t, card), Foundation, card, true, i))
  }

  /** `ToFoundation` takes the card out of its own pile and puts it, face up, on top of foundation pile i; no other pile changes. */
  lemma ToFoundationMoves(t: Table, card: Card, i: int)
    requires Total(t.place) && Liftable(t, card) && 0 <= i < 4 && |t.foundation| == 4
    requires (t.place[card].container.value, t.place[card].index) != (Foundation, i)
    ensures Removable(t, card) && |Removed(t, card).foundation| == 4
    ensures CardMoved(t, ToFoundation(t, card, i).table, card, Foundation, i)
    ensures ToFoundation(t, card, i).table.place[card] == Put(Foundation, true, i, |t.foundation[i]| + 1)
  {
    OneCardMoved(t, card, Foundation, i, true);
    RemovedPiles(t, card);
  }

  /** The `cardgroup` loop: the card and what lies on it, one by one from the bottom, onto tableau pile d. */
  function Carry(t: Table, card: Card, d: int): (u: Table)
    requires CanCarry(t, card, d)
    ensures Inv(u) && GroupMoved(t, u, card, d)
  {
    Carried(t, card, d);
    MoveAll(t, Group(t, card), d)
  }

  /** `CheckMove(card, destination)`. */
  function Moved(t: Table, card: Card, dest: Target): (r: Outcome)
    requires Draggable(t, card) && DropTarget(t, card, dest)
    ensures !r.moved ==> r.table == t
  {
    match dest
    case OnCard(c) => MovedOnCard(t, card, c)
    case OnSlot(n) => MovedOnSlot(t, card, n)
  }

  /** The branch of `CheckMove` for a drop on a foundation or tableau card. */
  function MovedOnCard(t: Table, card: Card, c: Card): (r: Outcome)
    requires Draggable(t, card) && DropTarget(t, card, OnCard(c))
    ensures !r.moved ==> r.table == t
  {
    Located(t, multiset{}, card);
    if t.place[c].container == Some(Foundation) then
      if Buried(t, card) || !Builds(card, c) then Outcome(false, t)
      else
        RemovedPiles(t, card);
        ToFoundation(t, card, t.place[c].index)
    else if Stacks(card, c) then
      var d := t.place[c].index;
      NotOwnPile(t, card, d);
      Outcome(true, Carry(t, card, d))
    else Outcome(false, t)
  }

  /** The branch of `CheckMove` for a drop on an empty slot: tableau slots 0..6, foundation slots 10..13. */
  function MovedOnSlot(t: Table, card: Card, n: int): (r: Outcome)
    requires Draggable(t, card)
    ensures !r.moved ==> r.table == t
  {
    Located(t, multiset{}, card);
    if 0 <= n < 7 && card.value == King && t.tableau[n] == [] then
      Outcome(true, Carry(t, card, n))
    else if 10 <= n < 14 then
      if Buried(t, card) || !(card.value == Ace && card.symbol == Suits[n - 10]) then Outcome(false, t)
      else
        RemovedPiles(t, card);
        ToFoundation(t, card, n - 10)
    else Outcome(false, t)
  }

  // ---------------------------------------------------------------------
  // Facts the foundation branches need
  // ---------------------------------------------------------------------

  /** An uncovered Ace dropped on the empty slot of its suit goes to that foundation pile. */
  lemma OnSlotAce(t: Table, card: Card, n: int)
    requires Draggable(t, card) && 10 <= n < 14 && !Buried(t, card)
    requires card.value == Ace && card.symbol == Suits[n - 10]
    ensures Removable(t, card) && |Removed(t, card).foundation| == 4
    ensures MovedOnSlot(t, card, n) == ToFoundation(t, card, n - 10)
  {
    Uncovered(t, card);
    RemovedPiles(t, card);
  }

  /** A draggable card with nothing on it can be taken by `removeCard`. */
  lemma Uncovered(t: Table, card: Card)
    requires Draggable(t, card) && !Buried(t, card)
    ensures Liftable(t, card)
  {
    Located(t, multiset{}, card);
  }

  /** The bottom card of a foundation pile is the Ace of the pile's suit. */
  lemma FoundationBottom(t: Table, i: int)
    requires Inv(t) && 0 <= i < 4
    ensures t.foundation[i] != [] ==>
      t.foundation[i][0] == Card(Ace, Suits[i]) && t.place[t.foundation[i][0]].container == Some(Foundation)
  {
    assert PileOk(Foundation, t.CardsOf(Foundation)[i], i, t.place);
  }

  /** An Ace that lies outside the foundation leaves the pile of its suit empty. */
  lemma AceAbsent(t: Table, card: Card, i: int)
    requires Inv(t) && 0 <= i < 4 && t.place[card].container != Some(Foundation)
    requires card.value == Ace && card.symbol == Suits[i]
    ensures t.foundation[i] == []
  {
    FoundationBottom(t, i);
  }

  /** The top card of foundation pile j is the pile's suit and rank; taking it off pops the pile. */
  lemma FoundationSource(t: Table, card: Card)
    requires Inv(t) && (t.place[card].container == Some(Foundation) ==> OnTop(t, card))
    ensures t.place[card].container == Some(Foundation) ==>
      var j := t.place[card].index;
      0 <= j < 4 && card.symbol == Suits[j] && card.value == |t.foundation[j]| &&
      Removable(t, card) && |Removed(t, card).foundation| == 4 &&
      Removed(t, card).foundation[j] == t.foundation[j][..|t.foundation[j]| - 1]
  {
    if t.place[card].container == Some(Foundation) {
      var j := t.place[card].index;
      var f := t.foundation[j];
      assert PileOk(Foundation, t.CardsOf(Foundation)[j], j, t.place);
      assert f[|f| - 1] == card;
      RemovedFoundation(t, multiset{}, card, j);
    }
  }

  /** `removeCard` followed by `Foundation.addCard` onto pile i, when the card is the pile's next one. */
  lemma FoundationDrop(t: Table, card: Card, i: int)
    requires Inv(t) && Liftable(t, card) && 0 <= i < 4 && card.symbol == Suits[i]
    requires Removable(t, card) && card.value == |Removed(t, card).foundation[i]| + 1
    ensures |Removed(t, card).foundation| == 4
    ensures var u := ToFoundation(t, card, i).table;
      Inv(u) && u.foundation[i] == Removed(t, card).foundation[i] + [card] &&
      u.place[card] == Put(Foundation, true, i, card.value) &&
      u.allCards == t.allCards && u.autocompletable == t.autocompletable
  {
    RemovedLifted(t, multiset{}, card);
    RemovedPiles(t, card);
    var r := Removed(t, card);
    assert multiset{} + multiset{card} == multiset{card};
    AddedFoundation(r, multiset{card}, card, i);
    assert multiset{card} - multiset{card} == multiset{};
  }

  /** The top card of a well-formed foundation pile is the pile's suit, its rank the pile's height. */
  lemma FoundationPileTop(pile: seq<Card>, i: int, place: map<Card, Placement>)
    requires Total(place) && 0 <= i < 4 && FoundationPileOk(pile, i, place) && pile != []
    ensures Last(pile).value == |pile| && Last(pile).symbol == Suits[i]
  {
    assert pile[|pile| - 1] == Last(pile);
  }

  lemma FoundationTop(t: Table, i: int)
    requires Inv(t) && 0 <= i < 4 && t.foundation[i] != []
    ensures Last(t.foundation[i]).value == |t.foundation[i]| && Last(t.foundation[i]).symbol == Suits[i]
  {
    assert PileOk(Foundation, t.CardsOf(Foundation)[i], i, t.place);
    FoundationPileTop(t.foundation[i], i, t.place);
  }

  /** Dropping a card on the top card of foundation pile i. */
  lemma OnFoundationCard(t: Table, card: Card, c: Card)
    requires Draggable(t, card) && DropTarget(t, card, OnCard(c)) && t.place[c].container == Some(Foundation)
    requires !Buried(t, card) && Builds(card, c)
    ensures var i := t.place[c].index;
      0 <= i < 4 && t.place[card].container != Some(Foundation) &&
      Liftable(t, card) && Removable(t, card) && Removed(t, card).foundation == t.foundation &&
      card.symbol == Suits[i] && card.value == |t.foundation[i]| + 1
  {
    var i := t.place[c].index;
    FoundationTop(t, i);
    FoundationSource(t, card);
    Uncovered(t, card);
    RemovedPiles(t, card);
  }

  /** Dropping an Ace on the slot of foundation pile i. */
  lemma OnFoundationSlot(t: Table, card: Card, i: int)
    requires Draggable(t, card) && 0 <= i < 4 && !Buried(t, card)
    requires card.value == Ace && card.symbol == Suits[i]
    ensures Liftable(t, card) && Removable(t, card) && Removed(t, card).foundation[i] == []
    ensures t.place[card].container != Some(Foundation) ==> t.foundation[i] == []
    ensures t.place[card].container == Some(Foundation) ==> t.foundation[i] == [card]
  {
    Uncovered(t, card);
    if t.place[card].container != Some(Foundation) {
      AceAbsent(t, card, i);
      RemovedPiles(t, card);
    } else {
      AceOnItsPile(t, card, i);
    }
  }

  /** An Ace that lies on a foundation lies alone on the pile of its suit, and taking it off empties the pile. */
  lemma AceOnItsPile(t: Table, card: Card, i: int)
    requires Draggable(t, card) && 0 <= i < 4 && t.place[card].container == Some(Foundation)
    requires card.value == Ace && card.symbol == Suits[i]
    ensures Removable(t, card) && Removed(t, card).foundation[i] == [] && t.foundation[i] == [card]
  {
    FoundationSource(t, card);
    var f := t.foundation[i];
    assert f == [f[0]];
  }

  // ---------------------------------------------------------------------
  // What CheckMove keeps and what it does
  // ---------------------------------------------------------------------

  /** `CheckMove` keeps the table consistent. */
  lemma MovedKeeps(t: Table, card: Card, dest: Target)
    requires Draggable(t, card) && DropTarget(t, card, dest)
    ensures Inv(Moved(t, card, dest).table)
  {
    match dest
    case OnCard(c) =>
      if t.place[c].container == Some(Foundation) && !Buried(t, card) && Builds(card, c) {
        OnFoundationCard(t, card, c);
        FoundationDrop(t, card, t.place[c].index);
      }
    case OnSlot(n) =>
      if !(0 <= n < 7 && card.value == King && t.tableau[n] == []) && 10 <= n < 14 &&
         !Buried(t, card) && card.value == Ace && card.symbol == Suits[n - 10] {
        OnFoundationSlot(t, card, n - 10);
        FoundationDrop(t, card, n - 10);
      }
  }

  /** Dropping onto foundation pile i: on its top card, or on its slot when it is empty. */
  ghost predicate FoundationTarget(t: Table, dest: Target, i: int) {
    |t.foundation| == 4 && 0 <= i < 4 &&
    if t.foundation[i] == [] then dest == OnSlot(10 + i) else dest == OnCard(Last(t.foundation[i]))
  }

  /** Dropping onto tableau pile d: on its top card, or on its slot. */
  ghost predicate TableauTarget(t: Table, dest: Target, d: int) {
    |t.tableau| == 7 && 0 <= d < 7 &&
    (dest == OnSlot(d) || (t.tableau[d] != [] && dest == OnCard(Last(t.tableau[d]))))
  }

  /**
   * A foundation pile takes exactly the next card of its suit, and only a card
   * with nothing on it; the card then lies on top of that pile.
   */
  lemma MovedToFoundation(t: Table, card: Card, dest: Target, i: int)
    requires Draggable(t, card) && DropTarget(t, card, dest) && FoundationTarget(t, dest, i)
    ensures var r := Moved(t, card, dest);
      (r.moved <==> !Buried(t, card) && card.symbol == Suits[i] && card.value == |t.foundation[i]| + 1) &&
      (r.moved ==> CardMoved(t, r.table, card, Foundation, i) &&
                   r.table.place[card] == Put(Foundation, true, i, card.value))
  {
    if t.foundation[i] != [] {
      MovedOnFoundationTop(t, card, i);
    } else {
      MovedOnFoundationSlot(t, card, i);
    }
  }

  lemma MovedOnFoundationTop(t: Table, card: Card, i: int)
    requires Draggable(t, card) && 0 <= i < 4 && t.foundation[i] != []
    requires DropTarget(t, card, OnCard(Last(t.foundation[i])))
    ensures var r := Moved(t, card, OnCard(Last(t.foundation[i])));
      (r.moved <==> !Buried(t, card) && card.symbol == Suits[i] && card.value == |t.foundation[i]| + 1) &&
      (r.moved ==> CardMoved(t, r.table, card, Foundation, i) &&
                   r.table.place[card] == Put(Foundation, true, i, card.value))
  {
    var f := t.foundation[i];
    var c := Last(f);
    FoundationSource(t, card);
    assert PileOk(Foundation, t.CardsOf(Foundation)[i], i, t.place);
    assert f[|f| - 1] == c;
    if !Buried(t, card) && Builds(card, c) {
      OnFoundationCard(t, card, c);
      ToFoundationMoves(t, card, i);
    }
  }

  lemma MovedOnFoundationSlot(t: Table, card: Card, i: int)
    requires Draggable(t, card) && 0 <= i < 4 && t.foundation[i] == []
    ensures var r := Moved(t, card, OnSlot(10 + i));
      (r.moved <==> !Buried(t, card) && card.symbol == Suits[i] && card.value == |t.foundation[i]| + 1) &&
      (r.moved ==> CardMoved(t, r.table, card, Foundation, i) &&
                   r.table.place[card] == Put(Foundation, true, i, card.value))
  {
    FoundationSource(t, card);
    if !Buried(t, card) && card.value == Ace && card.symbol == Suits[i] {
      SlotAceMove(t, card, i);
      ToFoundationMoves(t, card, i);
    }
  }

  /** An uncovered Ace of `suits[i]` dropped on the empty slot 10 + i goes onto foundation pile i. */
  lemma SlotAceMove(t: Table, card: Card, i: int)
    requires Draggable(t, card) && 0 <= i < 4 && t.foundation[i] == [] && !Buried(t, card)
    requires card.value == Ace && card.symbol == Suits[i]
    ensures Liftable(t, card) && t.place[card].container != Some(Foundation)
    ensures Removable(t, card) && |Removed(t, card).foundation| == 4
    ensures Moved(t, card, OnSlot(10 + i)) == ToFoundation(t, card, i)
  {
    OnFoundationSlot(t, card, i);
    OnSlotAce(t, card, 10 + i);
  }

  /**
   * A tableau pile takes a card one rank lower and of the other colour onto its
   * top card, and a King onto its slot when it is empty; the card arrives with
   * everything that lay on it.
   */
  lemma MovedToTableau(t: Table, card: Card, dest: Target, d: int)
    requires Draggable(t, card) && DropTarget(t, card, dest) && TableauTarget(t, dest, d)
    ensures var r := Moved(t, card, dest);
      (r.moved <==> if t.tableau[d] == [] then card.value == King else dest.OnCard? && Stacks(card, Last(t.tableau[d]))) &&
      (r.moved ==> GroupMoved(t, r.table, card, d))
  {
    if dest.OnCard? {
      var P := t.tableau[d];
      assert PileOk(Tableau, t.CardsOf(Tableau)[d], d, t.place);
      PileCardPlaced(Tableau, P, d, t.place, |P| - 1);
    }
  }

  /**
   * An Ace that lies alone on its foundation pile, dropped on that pile's slot,
   * counts as a move, and the table is as it was.
   */
  lemma AceBackOnItsSlot(t: Table, card: Card, i: int)
    requires Draggable(t, card) && 0 <= i < 4 && t.place[card].container == Some(Foundation)
    requires card.value == Ace && t.place[card].index == i
    ensures Moved(t, card, OnSlot(10 + i)).moved && Moved(t, card, OnSlot(10 + i)).table == t
  {
    FoundationSource(t, card);
    assert card.symbol == Suits[i];
    assert PileOk(Foundation, t.CardsOf(Foundation)[i], i, t.place);
    assert t.foundation[i] == [card];
    assert !Buried(t, card);
    OnFoundationSlot(t, card, i);
    FoundationDrop(t, card, i);
    RemovedPiles(t, card);
    assert RemoveFirst([card], card) == [];
    var r := Removed(t, card);
    assert r.foundation == t.foundation[i := []];
    var u := Moved(t, card, OnSlot(10 + i)).table;
    assert u == Added(r, Foundation, card, true, i);
    assert u.foundation == r.foundation[i := [] + [card]];
    assert [] + [card] == [card];
    assert t.foundation[i := [card]] == t.foundation;
    assert u.place[card] == t.place[card];
    assert u.place == t.place;
    assert u.foundation == t.foundation;
  }
}
