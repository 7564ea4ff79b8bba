/**
 * `Card.validMove` and the `validateMove` of the four containers: what a
 * click or a drop does to the table, and what it reports back.
 */
module Validation {
  import opened PlayingCards
  import opened Piles
  import opened Containers
  import opened ContainerFacts
  import opened CheckMoves
  import opened AutomaticMoves
  import opened Completion

  /**
   * What `mouseReleaseEvent` can hand to `validMove`: a card lying in a
   * container (a foundation card only as its pile's top, the others lying
   * under it), and no destination for a click or, for a drop, what
   * `releaseCard` found under the cursor. For a drop it is wider than the
   * window: it admits a waste card under the waste top, which cannot be dragged.
   */
  ghost predicate Clickable(t: Table, card: Card, dest: Option<Target>) {
    Inv(t) && t.place[card].container.Some? &&
    (t.place[card].container == Some(Foundation) ==> OnTop(t, card)) &&
    (dest.Some? ==> DropTarget(t, card, dest.value))
  }

  /** The first half of `CardContainer.validateMove`: `CheckAutomaticMoves` for a click, `CheckMove` for a drop. */
  function Checked(t: Table, card: Card, dest: Option<Target>): (r: Outcome)
    requires Draggable(t, card) && (dest.Some? ==> DropTarget(t, card, dest.value))
    ensures Inv(r.table) && (!r.moved ==> r.table == t)
  {
    if dest.None? then
      AutoMovedKeeps(t, card);
      AutoMoved(t, card)
    else
      MovedKeeps(t, card, dest.value);
      Moved(t, card, dest.value)
  }

  /** A card whose container's `validateMove` goes on to `CheckMove` or `CheckAutomaticMoves`. */
  ghost predicate Playable(t: Table, card: Card)
    requires Total(t.place)
  {
    t.place[card].container != Some(Stock) &&
    !(t.place[card].container == Some(Tableau) && t.place[card].state == FaceDown)
  }

  lemma PlayableDraggable(t: Table, card: Card, dest: Option<Target>)
    requires Clickable(t, card, dest)
    ensures Playable(t, card) ==> Draggable(t, card)
  {
    Located(t, multiset{}, card);
  }

  /**
   * `card.container.validateMove(card, destination)`: `Stock` deals the card
   * to the waste; `Tableau` refuses a face-down card; otherwise the move is
   * tried, `CheckAutoComplete` refreshes the flag, and a move that wins the
   * game is reported as no move.
   */
  function Validated(t: Table, card: Card, dest: Option<Target>): (r: Outcome)
    requires Clickable(t, card, dest)
    ensures Inv(r.table)
  {
    Located(t, multiset{}, card);
    PlayableDraggable(t, card, dest);
    if t.place[card].container == Some(Stock) then
      AdvancedKeeps(t, multiset{}, card);
      Outcome(true, Advanced(t, card))
    else if t.place[card].container == Some(Tableau) && t.place[card].state == FaceDown then
      Outcome(false, t)
    else
      var o := Checked(t, card, dest);
      AutoFlaggedIff(o.table);
      var u := AutoFlagged(o.table);
      Outcome(o.moved && !Won(u), u)
  }

  /** `Card.validMove`: runs the container's `validateMove` and reports whether the card had a container. */
  function ValidMove(t: Table, card: Card, dest: Option<Target>): (r: Outcome)
    requires card in t.place
    requires t.place[card].container.Some? ==> Clickable(t, card, dest)
    ensures r.moved <==> t.place[card].container.Some?
    ensures r.moved ==> Inv(r.table)
    ensures !r.moved ==> r.table == t
  {
    if t.place[card].container.None? then Outcome(false, t)
    else Outcome(true, Validated(t, card, dest).table)
  }

  // ---------------------------------------------------------------------
  // What validateMove does and reports
  // ---------------------------------------------------------------------

  /** A click on a stock card turns it onto the waste; the flag is not refreshed. */
  lemma ValidatedStock(t: Table, card: Card, dest: Option<Target>)
    requires Clickable(t, card, dest) && t.place[card].container == Some(Stock)
    ensures var r := Validated(t, card, dest);
      r.moved && r.table.waste[0] == t.waste[0] + [card] &&
      r.table.stock[0] == RemoveFirst(t.stock[0], card) && |r.table.stock[0]| == |t.stock[0]| - 1 &&
      r.table.foundation == t.foundation && r.table.tableau == t.tableau &&
      r.table.place[card] == Placement(FaceUp, 0, |t.waste[0]| + 1, Some(Waste), true, 0) &&
      r.table.autocompletable == t.autocompletable
  {
    Located(t, multiset{}, card);
    AdvancedShape(t, multiset{}, card);
  }

  /** `Tableau.validateMove` refuses a face-down card and changes nothing. */
  lemma ValidatedFaceDown(t: Table, card: Card, dest: Option<Target>)
    requires Clickable(t, card, dest)
    requires t.place[card].container == Some(Tableau) && t.place[card].state == FaceDown
    ensures Validated(t, card, dest) == Outcome(false, t)
  {
  }

  /** After a move is tried, the flag says whether no tableau card lies face down. */
  lemma ValidatedFlag(t: Table, card: Card, dest: Option<Target>)
    requires Clickable(t, card, dest) && Playable(t, card)
    ensures var r := Validated(t, card, dest);
      r.table.autocompletable <==> NoFaceDown(r.table)
  {
    PlayableDraggable(t, card, dest);
    var o := Checked(t, card, dest);
    AutoFlaggedIff(o.table);
    var u := AutoFlagged(o.table);
    assert u.place == o.table.place && u.tableau == o.table.tableau;
    assert NoFaceDown(u) == NoFaceDown(o.table);
  }

  /**
   * What a played card reports: a winning move is reported as no move, any
   * other move as what `CheckMove` or `CheckAutomaticMoves` said; a refused
   * move leaves every card where it was.
   */
  lemma ValidatedReports(t: Table, card: Card, dest: Option<Target>)
    requires Clickable(t, card, dest) && Playable(t, card)
    ensures Draggable(t, card)
    ensures var r, o := Validated(t, card, dest), Checked(t, card, dest);
      (Won(r.table) ==> !r.moved) &&
      (!Won(r.table) ==> (r.moved <==> o.moved)) &&
      (!o.moved ==> r.table == AutoFlagged(t))
  {
    PlayableDraggable(t, card, dest);
  }
}
