/**
 * The four card containers (Foundation, Tableau, Stock, Waste), the fields
 * every card carries about where it lies, and the container operations
 * `addCard`, `removeCard` (with the Tableau and Waste overrides),
 * `Waste.updateOrder`, `Stock.reload` and `Stock.validateMove`, as
 * functions from one table to the next.
 */
module Containers {
  import opened PlayingCards
  import opened Piles

  datatype Option<T> = None | Some(value: T)

  datatype Container = Foundation | Tableau | Stock | Waste

  datatype Face = FaceUp | FaceDown

  /**
   * A card's mutable fields: `State`, `Index`, `Z_Value`, `container`,
   * `_drag_enabled`, and `slot`, the pile number handed to `cardPosition`
   * when the card's screen position was last computed.
   */
  datatype Placement = Placement(
    state: Face, index: int, zValue: int, container: Option<Container>, dragEnabled: bool, slot: int)

  /** A card as `Card.__init__` leaves it. */
  const Fresh: Placement := Placement(FaceUp, 0, 0, None, true, 0)

  function FaceOf(faceup: bool): Face {
    if faceup then FaceUp else FaceDown
  }

  /** What `k.addCard(card, faceup, i)` writes into a card that becomes the z-th card of pile i. */
  function Put(k: Container, faceup: bool, i: int, z: int): Placement {
    Placement(FaceOf(faceup), i, z, Some(k), faceup, i)
  }

  function Min(a: int, b: int): int {
    if a < b then a else b
  }

  /** What `Waste.updateOrder` writes into the card at position j (from the bottom) of an n-card pile. */
  function Fanned(p: Placement, n: int, j: int): Placement {
    p.(zValue := j + 1, slot := Min(n - 1 - j, 2), dragEnabled := j == n - 1)
  }

  /** The rules state of the game window: the piles of each container, every card's fields, `all_cards` and `Autocompletable`. */
  datatype Table = Table(
    foundation: seq<seq<Card>>,
    tableau: seq<seq<Card>>,
    stock: seq<seq<Card>>,
    waste: seq<seq<Card>>,
    place: map<Card, Placement>,
    allCards: seq<Card>,
    autocompletable: bool)
  {
    /** `container.cards` */
    function CardsOf(k: Container): seq<seq<Card>> {
      match k
      case Foundation => foundation
      case Tableau => tableau
      case Stock => stock
      case Waste => waste
    }

    function WithCards(k: Container, piles: seq<seq<Card>>): (r: Table)
      ensures r.CardsOf(k) == piles
      ensures forall k' :: k' != k ==> r.CardsOf(k') == CardsOf(k')
      ensures r.place == place && r.allCards == allCards && r.autocompletable == autocompletable
    {
      match k
      case Foundation => this.(foundation := piles)
      case Tableau => this.(tableau := piles)
      case Stock => this.(stock := piles)
      case Waste => this.(waste := piles)
    }
  }

  // ---------------------------------------------------------------------
  // Container operations
  // ---------------------------------------------------------------------

  /** `CardContainer.addCard(card, faceup, i)`: append to pile i and record where the card now lies. */
  function Added(t: Table, k: Container, card: Card, faceup: bool, i: nat): Table
    requires i < |t.CardsOf(k)|
  {
    var piles := t.CardsOf(k);
    t.WithCards(k, piles[i := piles[i] + [card]]).(place := t.place[card := Put(k, faceup, i, |piles[i]| + 1)])
  }

  /** `CardContainer.removeCard`, inherited by Foundation and Stock: a card that is absent is ignored. */
  function BaseRemoved(t: Table, k: Container, card: Card): Table
    requires card in t.place && 0 <= t.place[card].index < |t.CardsOf(k)|
  {
    var i := t.place[card].index;
    var pile := t.CardsOf(k)[i];
    if card in pile then
      t.WithCards(k, t.CardsOf(k)[i := RemoveFirst(pile, card)]).(place := t.place[card := t.place[card].(container := None)])
    else
      t
  }

  /** Turn a pile's top card face up (`State = "faceup"` and `updateState`). */
  function Revealed(place: map<Card, Placement>, pile: seq<Card>): map<Card, Placement>
    requires pile != [] ==> Last(pile) in place
  {
    if pile == [] then place else place[Last(pile) := place[Last(pile)].(state := FaceUp, dragEnabled := true)]
  }

  /** `Tableau.removeCard`: the card must be in its pile; the pile's new top is turned face up. */
  function TableauRemoved(t: Table, card: Card): (r: Table)
    requires Total(t.place) && 0 <= t.place[card].index < |t.tableau|
    requires card in t.tableau[t.place[card].index]
  {
    var t1 := BaseRemoved(t, Tableau, card);
    t1.(place := Revealed(t1.place, t1.tableau[t.place[card].index]))
  }

  /** `Waste.updateOrder`: restack the waste pile, its top card the only one that can be dragged. */
  function Reordered(t: Table): Table
    requires |t.waste| > 0
  {
    t.(place := Reorder(t.place, t.waste[0]))
  }

  function Reorder(place: map<Card, Placement>, w: seq<Card>): map<Card, Placement>
  {
    map c | c in place :: if c in w then Fanned(place[c], |w|, IndexOf(w, c)) else place[c]
  }

  /** `Waste.removeCard`: the inherited removal followed by `updateOrder`. */
  function WasteRemoved(t: Table, card: Card): Table
    requires card in t.place && 0 <= t.place[card].index < |t.waste|
  {
    var t1 := BaseRemoved(t, Waste, card);
    Reordered(t1)
  }

  /** What `card.container.removeCard(card)` needs to run without raising. */
  ghost predicate Removable(t: Table, card: Card) {
    Total(t.place) && t.place[card].container.Some? &&
    var k := t.place[card].container.value;
    0 <= t.place[card].index < |t.CardsOf(k)| &&
    (k == Tableau ==> card in t.tableau[t.place[card].index])
  }

  /** `card.container.removeCard(card)`: the removal of the card's own container. */
  function Removed(t: Table, card: Card): Table
    requires Removable(t, card)
  {
    match t.place[card].container.value
    case Tableau => TableauRemoved(t, card)
    case Waste => WasteRemoved(t, card)
    case k => BaseRemoved(t, k, card)
  }

  /** `Stock.reload`: pop the waste's top card onto the stock, face down, until the waste is empty. */
  function Reloaded(t: Table): Table
    requires |t.waste| > 0 && |t.stock| > 0
    decreases |t.waste[0]|
  {
    var w := t.waste[0];
    if w == [] then t
    else Reloaded(Added(t.(waste := t.waste[0 := w[..|w| - 1]]), Stock, Last(w), false, 0))
  }

  /** `Stock.validateMove(card)`: the clicked stock card goes face up onto the waste. */
  function Advanced(t: Table, card: Card): Table
    requires |t.stock| > 0 && |t.waste| > 0 && card in t.stock[0]
  {
    var t1 := t.(stock := t.stock[0 := RemoveFirst(t.stock[0], card)]);
    Reordered(Added(t1, Waste, card, true, 0))
  }

  // ---------------------------------------------------------------------
  // What a move leaves alone
  // ---------------------------------------------------------------------

  /** u holds the same piles as t, except perhaps pile i of container k and pile j of container k2; `all_cards` and the flag agree. */
  ghost predicate KeepsOthers(t: Table, u: Table, k: Container, i: int, k2: Container, j: int) {
    (forall c :: |u.CardsOf(c)| == |t.CardsOf(c)|) &&
    (forall c, x | 0 <= x < |t.CardsOf(c)| && (c, x) != (k, i) && (c, x) != (k2, j) :: u.CardsOf(c)[x] == t.CardsOf(c)[x]) &&
    u.allCards == t.allCards && u.autocompletable == t.autocompletable
  }

  /**
   * u is t with `card` taken out of its own pile (by `list.remove`) and put on
   * top of pile j of container k2, another pile; no other pile changes.
   */
  ghost predicate CardMoved(t: Table, u: Table, card: Card, k2: Container, j: int)
    requires Total(t.place)
  {
    t.place[card].container.Some? &&
    var k, i := t.place[card].container.value, t.place[card].index;
    0 <= i < |t.CardsOf(k)| && 0 <= j < |t.CardsOf(k2)| && (k, i) != (k2, j) &&
    KeepsOthers(t, u, k, i, k2, j) &&
    u.CardsOf(k)[i] == RemoveFirst(t.CardsOf(k)[i], card) &&
    u.CardsOf(k2)[j] == t.CardsOf(k2)[j] + [card]
  }

  // ---------------------------------------------------------------------
  // Invariants
  // ---------------------------------------------------------------------

  /** Every card has its fields (the 52 Card objects exist for the life of the window). */
  ghost predicate Total(place: map<Card, Placement>) {
    forall c: Card :: c in place
  }

  /** Foundation pile i holds Ace, 2, ... of `suits[i]` in order, each card recorded where it lies. */
  ghost predicate FoundationPileOk(pile: seq<Card>, i: int, place: map<Card, Placement>)
    requires 0 <= i < 4 && Total(place)
  {
    forall j | 0 <= j < |pile| ::
      pile[j].value == j + 1 && pile[j].symbol == Suits[i] && place[pile[j]] == Put(Foundation, true, i, j + 1)
  }

  ghost predicate OnTableau(p: Placement, i: int, j: int) {
    p.container == Some(Tableau) && p.index == i && p.zValue == j + 1 && p.slot == i &&
    p.dragEnabled == (p.state == FaceUp)
  }

  /**
   * Tableau pile i: every card recorded where it lies; the top card face up;
   * above a face-up card only face-up cards, each one rank lower and of the
   * other colour than the card it lies on.
   */
  ghost predicate TableauPileOk(pile: seq<Card>, i: int, place: map<Card, Placement>)
    requires Total(place)
  {
    (forall j | 0 <= j < |pile| :: OnTableau(place[pile[j]], i, j)) &&
    (pile != [] ==> place[Last(pile)].state == FaceUp) &&
    (forall j | 0 <= j < |pile| - 1 && place[pile[j]].state == FaceUp ::
       place[pile[j + 1]].state == FaceUp && Stacks(pile[j + 1], pile[j]))
  }

  ghost predicate StockPlaced(p: Placement) {
    p.state == FaceDown && p.index == 0 && p.container == Some(Stock) && !p.dragEnabled && p.slot == 0
  }

  ghost predicate WastePileOk(pile: seq<Card>, place: map<Card, Placement>)
    requires Total(place)
  {
    forall j | 0 <= j < |pile| ::
      place[pile[j]] == Placement(FaceUp, 0, j + 1, Some(Waste), j == |pile| - 1, Min(|pile| - 1 - j, 2))
  }

  /** What each container demands of one of its piles. */
  ghost predicate PileOk(k: Container, pile: seq<Card>, i: int, place: map<Card, Placement>)
    requires Total(place)
  {
    match k
    case Foundation => 0 <= i < 4 && FoundationPileOk(pile, i, place)
    case Tableau => TableauPileOk(pile, i, place)
    case Stock => i == 0 && forall j | 0 <= j < |pile| :: StockPlaced(place[pile[j]])
    case Waste => i == 0 && WastePileOk(pile, place)
  }

  /** Four foundation piles, seven tableau piles, one stock and one waste pile, each well formed. */
  ghost predicate PilesOk(t: Table)
    requires Total(t.place)
  {
    |t.foundation| == 4 && |t.tableau| == 7 && |t.stock| == 1 && |t.waste| == 1 &&
    forall k: Container, i | 0 <= i < |t.CardsOf(k)| :: PileOk(k, t.CardsOf(k)[i], i, t.place)
  }

  /** All cards lying in the four containers, with multiplicity. */
  ghost function Contents(t: Table): multiset<Card> {
    multiset(Flatten(t.foundation)) + multiset(Flatten(t.tableau)) + multiset(Flatten(t.stock)) + multiset(Flatten(t.waste))
  }

  /**
   * The table is consistent while the cards of `hand` are lifted out of their
   * containers: the piles are well formed and, together with `hand`, hold each
   * of the 52 cards exactly once.
   */
  ghost predicate Holding(t: Table, hand: multiset<Card>) {
    Total(t.place) && PilesOk(t) &&
    Contents(t) + hand == multiset(FullDeck()) &&
    multiset(t.allCards) == multiset(FullDeck())
  }

  /** The invariant the game keeps between operations. */
  ghost predicate Inv(t: Table) {
    Holding(t, multiset{})
  }
}
