/**
 * The game window as an object: the containers' piles, every card's fields,
 * `all_cards` and `Autocompletable` are fields that the methods update in
 * place, loop by loop as the window does. Each method is proved to leave
 * the state that the corresponding function of the rules computes.
 */
module Solitaire {
  import opened PlayingCards
  import opened Piles
  import opened Containers
  import opened ContainerFacts
  import opened Rules
  import opened CheckMoves
  import opened AutomaticMoves
  import opened Completion
  import opened Validation
  import opened Dealing

  class Game {
    /** `Foundation.cards`, `Tableau.cards`, `Stock.cards` and `Waste.cards`. */
    var foundation: seq<seq<Card>>
    var tableau: seq<seq<Card>>
    var stock: seq<seq<Card>>
    var waste: seq<seq<Card>>
    /** The fields each card object carries. */
    var place: map<Card, Placement>
    var allCards: seq<Card>
    var autocompletable: bool

    /** The state as a value, for the functions that specify the methods. */
    function Snapshot(): Table
      reads this
    {
      Table(foundation, tableau, stock, waste, place, allCards, autocompletable)
    }

    ghost predicate Valid()
      reads this
    {
      Inv(Snapshot())
    }

    /**
     * The window as far as the rules go: `initScene` sets `Autocompletable =
     * False`, then `initCards` runs (and the deal it ends with). `perm` is the
     * order the shuffle leaves `all_cards` in; the deal keeps the flag.
     */
    constructor (perm: seq<Card>)
      requires multiset(perm) == multiset(FullDeck())
      ensures Valid() && !autocompletable
      ensures Snapshot() == Dealt(Table([], [], [], [], map[], [], false), perm)
    {
      foundation, tableau, stock, waste := [], [], [], [];
      place, allCards, autocompletable := map[], [], false;
      new;
      InitCards(perm);
      DealtKeeps(Snapshot(), perm);
    }

    /** `initCards`: the four containers, the 52 cards suit by suit, Ace to King, then `ShuffleCards`. */
    method InitCards(perm: seq<Card>)
      requires multiset(perm) == multiset(FullDeck())
      modifies this
      ensures Snapshot() == Dealt(old(Snapshot()), perm)
    {
      foundation, tableau, stock, waste := [[], [], [], []], [[], [], [], [], [], [], []], [[]], [[]];
      allCards := [];
      for i := 0 to 4
        invariant allCards == FullDeck()[..13 * i] && autocompletable == old(autocompletable)
      {
        for r := 0 to 13
          invariant allCards == FullDeck()[..13 * i + r] && autocompletable == old(autocompletable)
        {
          var card := Card(r + 1, Suits[i]);
          DeckGrows(i, r);
          place := place[card := Fresh];
          allCards := allCards + [card];
        }
      }
      assert allCards == FullDeck();
      ShuffleCards(perm);
    }

    // -------------------------------------------------------------------
    // The containers
    // -------------------------------------------------------------------

    /** `CardContainer.addCard(card, faceup, index)`. */
    method AddCard(k: Container, card: Card, faceup: bool, i: nat)
      requires i < |Snapshot().CardsOf(k)|
      modifies this
      ensures Snapshot() == Added(old(Snapshot()), k, card, faceup, i)
    {
      var z := |Snapshot().CardsOf(k)[i]| + 1;
      match k {
        case Foundation => foundation := foundation[i := foundation[i] + [card]];
        case Tableau => tableau := tableau[i := tableau[i] + [card]];
        case Stock => stock := stock[i := stock[i] + [card]];
        case Waste => waste := waste[i := waste[i] + [card]];
      }
      place := place[card := Put(k, faceup, i, z)];
    }

    /** `CardContainer.removeCard(card)`, for the container k the card names. */
    method BaseRemoveCard(k: Container, card: Card)
      requires card in place && 0 <= place[card].index < |Snapshot().CardsOf(k)|
      modifies this
      ensures Snapshot() == BaseRemoved(old(Snapshot()), k, card)
    {
      var i := place[card].index;
      var pile := Snapshot().CardsOf(k)[i];
      if card in pile {
        var rest := RemoveFirst(pile, card);
        match k {
          case Foundation => foundation := foundation[i := rest];
          case Tableau => tableau := tableau[i := rest];
          case Stock => stock := stock[i := rest];
          case Waste => waste := waste[i := rest];
        }
        place := place[card := place[card].(container := None)];
      }
    }

    /** `Tableau.removeCard(card)`: the inherited removal, then the pile's new top is turned face up. */
    method TableauRemoveCard(card: Card)
      requires Total(place) && 0 <= place[card].index < |tableau| && card in tableau[place[card].index]
      modifies this
      ensures Snapshot() == TableauRemoved(old(Snapshot()), card)
    {
      var i := place[card].index;
      BaseRemoveCard(Tableau, card);
      if tableau[i] != [] {
        var top := Last(tableau[i]);
        place := place[top := place[top].(state := FaceUp, dragEnabled := true)];
      }
    }

    /** `Waste.updateOrder`: from the top down, the z-value, the fan position and the drag flag of each waste card. */
    method UpdateOrder()
      requires |waste| > 0
      modifies this
      ensures Snapshot() == Reordered(old(Snapshot()))
    {
      var w := waste[0];
      var n := |w|;
      var m := n;
      assert w[n..] == [];
      assert Refanned(place, w, n) == place;
      while m > 0
        invariant 0 <= m <= n
        invariant place == Refanned(old(place), w, m)
        invariant Snapshot() == old(Snapshot()).(place := place)
      {
        var card := w[m - 1];
        RefanStep(old(place), w, m);
        if card in place {
          place := place[card := place[card].(zValue := m, slot := Min(n - m, 2), dragEnabled := m == n)];
        }
        m := m - 1;
      }
      assert w[0..] == w;
    }

    /** `Waste.removeCard(card)`: the inherited removal followed by `updateOrder`. */
    method WasteRemoveCard(card: Card)
      requires card in place && 0 <= place[card].index < |waste|
      modifies this
      ensures Snapshot() == WasteRemoved(old(Snapshot()), card)
    {
      BaseRemoveCard(Waste, card);
      UpdateOrder();
    }

    /** `card.container.removeCard(card)`. */
    method RemoveCard(card: Card)
      requires Removable(Snapshot(), card)
      modifies this
      ensures Snapshot() == Removed(old(Snapshot()), card)
    {
      match place[card].container.value
      case Tableau => TableauRemoveCard(card);
      case Waste => WasteRemoveCard(card);
      case Foundation => BaseRemoveCard(Foundation, card);
      case Stock => BaseRemoveCard(Stock, card);
    }

    /** `Stock.reload`: while the waste is not empty, pop its top card onto the stock, face down. */
    method Reload()
      requires |waste| > 0 && |stock| > 0
      modifies this
      ensures Snapshot() == Reloaded(old(Snapshot()))
    {
      while waste[0] != []
        invariant |waste| > 0 && |stock| > 0
        invariant Reloaded(Snapshot()) == Reloaded(old(Snapshot()))
        decreases |waste[0]|
      {
        var w := waste[0];
        var card := Last(w);
        waste := waste[0 := w[..|w| - 1]];
        AddCard(Stock, card, false, 0);
      }
    }

    /** `Stock.validateMove(card)`: the card leaves the stock for the waste, face up, and the waste is restacked. */
    method StockValidateMove(card: Card) returns (r: bool)
      requires |stock| > 0 && |waste| > 0 && card in stock[0]
      modifies this
      ensures r && Snapshot() == Advanced(old(Snapshot()), card)
    {
      stock := stock[0 := RemoveFirst(stock[0], card)];
      AddCard(Waste, card, true, 0);
      UpdateOrder();
      r := true;
    }

    // -------------------------------------------------------------------
    // The window's rules
    // -------------------------------------------------------------------

    /**
     * `ShuffleCards`, with `random.shuffle` having put `all_cards` in the
     * order `perm`: reset the containers, deal 24 cards face down onto the
     * stock, then i + 1 cards onto tableau column i, face up only the last.
     */
    method ShuffleCards(perm: seq<Card>)
      requires multiset(perm) == multiset(allCards) && multiset(allCards) == multiset(FullDeck())
      modifies this
      ensures Snapshot() == Dealt(old(Snapshot()), perm)
    {
      ghost var t := Snapshot();
      assert |perm| == |multiset(perm)| == 52;
      foundation, tableau, stock, waste := [[], [], [], []], [[], [], [], [], [], [], []], [[]], [[]];
      allCards := perm;
      DealStock(t.place);
      DealTableau(t.place);
      DealtFrom(t, perm, Snapshot());
    }

    /** The first loop of `ShuffleCards`: the first 24 cards go face down onto the stock. */
    method DealStock(ghost p: map<Card, Placement>)
      requires |allCards| == 52 && multiset(allCards) == multiset(FullDeck())
      requires stock == [[]] && place == p
      modifies this
      ensures allCards == old(allCards) && autocompletable == old(autocompletable)
      ensures stock == [allCards[..StockSize]] && place == DealtSoFar(p, allCards, StockSize)
      ensures foundation == old(foundation) && tableau == old(tableau) && waste == old(waste)
    {
      for i := 0 to StockSize
        invariant allCards == old(allCards) && autocompletable == old(autocompletable)
        invariant stock == [allCards[..i]] && place == DealtSoFar(p, allCards, i)
        invariant foundation == old(foundation) && tableau == old(tableau) && waste == old(waste)
      {
        ghost var s0 := Snapshot();
        AddCard(Stock, allCards[i], false, 0);
        StockDealtOne(s0, allCards, i);
        DealtSoFarStep(p, allCards, i);
      }
    }

    /** The second loop of `ShuffleCards`: column i takes the next i + 1 cards. */
    method DealTableau(ghost p: map<Card, Placement>)
      requires |allCards| == 52 && multiset(allCards) == multiset(FullDeck())
      requires |tableau| == 7 && (forall d | 0 <= d < 7 :: tableau[d] == []) && place == DealtSoFar(p, allCards, StockSize)
      modifies this
      ensures allCards == old(allCards) && autocompletable == old(autocompletable)
      ensures |tableau| == 7 && forall d | 0 <= d < 7 :: tableau[d] == Column(allCards, d)
      ensures place == DealtSoFar(p, allCards, 52)
      ensures foundation == old(foundation) && stock == old(stock) && waste == old(waste)
    {
      var n := StockSize;
      for i := 0 to 7
        invariant allCards == old(allCards) && autocompletable == old(autocompletable)
        invariant n == StockSize + Tri(i) && Tri(i) <= 28
        invariant |tableau| == 7 && forall d | 0 <= d < 7 :: tableau[d] == if d < i then Column(allCards, d) else []
        invariant place == DealtSoFar(p, allCards, n)
        invariant foundation == old(foundation) && stock == old(stock) && waste == old(waste)
      {
        TriStep(i);
        TriMono(i + 1, 7);
        ghost var before := tableau;
        n := DealColumn(p, i, n);
        assert tableau == before[i := Column(allCards, i)];
        assert forall d | 0 <= d < 7 :: tableau[d] == if d < i + 1 then Column(allCards, d) else [];
      }
      assert Tri(7) == 28;
    }

    /** One round of the second loop of `ShuffleCards`: the next i + 1 cards go onto column i, the last face up. */
    method DealColumn(ghost p: map<Card, Placement>, i: nat, n: nat) returns (m: nat)
      requires |allCards| == 52 && multiset(allCards) == multiset(FullDeck())
      requires i < 7 && n == StockSize + Tri(i) && |tableau| == 7 && tableau[i] == []
      requires place == DealtSoFar(p, allCards, n)
      modifies this
      ensures m == n + i + 1 && m == StockSize + Tri(i + 1)
      ensures allCards == old(allCards) && autocompletable == old(autocompletable)
      ensures tableau == old(tableau)[i := Column(allCards, i)]
      ensures place == DealtSoFar(p, allCards, m)
      ensures foundation == old(foundation) && stock == old(stock) && waste == old(waste)
    {
      ColumnSlice(allCards, i, n);
      TriStep(i);
      m := n;
      assert allCards[n..m] == [];
      assert tableau[i := allCards[n..m]] == tableau;
      for j := 0 to i + 1
        invariant allCards == old(allCards) && autocompletable == old(autocompletable)
        invariant m == n + j && tableau == old(tableau)[i := allCards[n..m]]
        invariant place == DealtSoFar(p, allCards, m)
        invariant foundation == old(foundation) && stock == old(stock) && waste == old(waste)
      {
        ghost var before := tableau;
        ghost var m0 := m;
        m := DealCard(p, i, j, m);
        assert allCards[n..m] == allCards[n..m0] + [allCards[m0]];
        assert tableau == before[i := allCards[n..m]];
      }
    }

    /** The j-th `addCard` of round i of the second loop: the card dealt m-th, face up only when it is the last of the column. */
    method DealCard(ghost p: map<Card, Placement>, i: nat, j: nat, m: int) returns (m': nat)
      requires |allCards| == 52 && multiset(allCards) == multiset(FullDeck())
      requires i < 7 && j <= i && m == StockSize + Tri(i) + j
      requires |tableau| == 7 && |tableau[i]| == j && place == DealtSoFar(p, allCards, m)
      modifies this
      ensures m' == m + 1 <= 52
      ensures allCards == old(allCards) && autocompletable == old(autocompletable)
      ensures tableau == old(tableau)[i := old(tableau)[i] + [allCards[m]]]
      ensures place == DealtSoFar(p, allCards, m')
      ensures foundation == old(foundation) && stock == old(stock) && waste == old(waste)
    {
      DealtCellStep(p, allCards, i, j, m);
      AddCard(Tableau, allCards[m], i == j, i);
      m' := m + 1;
    }

    /** `CheckWin`: every foundation pile holds 13 cards. */
    method CheckWin() returns (won: bool)
      ensures won == Won(Snapshot())
    {
      var i := 0;
      while i < |foundation|
        invariant 0 <= i <= |foundation|
        invariant forall j | 0 <= j < i :: |foundation[j]| == 13
      {
        if |foundation[i]| != 13 {
          return false;
        }
        i := i + 1;
      }
      return true;
    }

    /** `CheckAutoComplete`: `Autocompletable` becomes whether no card of `all_cards` lies face down in the tableau. */
    method CheckAutoComplete()
      requires Total(place)
      modifies this
      ensures Snapshot() == AutoFlagged(old(Snapshot()))
    {
      var i := 0;
      while i < |allCards|
        invariant 0 <= i <= |allCards|
        invariant !AnyFaceDown(allCards[..i], place)
      {
        var card := allCards[i];
        if place[card].state == FaceDown && place[card].container == Some(Tableau) {
          autocompletable := false;
          return;
        }
        assert allCards[..i + 1] == allCards[..i] + [card];
        i := i + 1;
      }
      assert allCards[..i] == allCards;
      autocompletable := true;
    }

    /** The `cardgroup` loop: walk the card's tableau pile down from the top to the card, then reverse. */
    method CardGroup(card: Card) returns (g: seq<Card>)
      requires card in place
      requires place[card].container == Some(Tableau) ==> 0 <= place[card].index < |tableau|
      ensures g == Group(Snapshot(), card)
    {
      var group: seq<Card> := [];
      if place[card].container == Some(Tableau) {
        var pile := tableau[place[card].index];
        var k := |pile|;
        assert pile[..k] == pile && pile[k..] == [];
        while k > 0 && pile[k - 1] != card
          invariant 0 <= k <= |pile|
          invariant Reverse(group) == pile[k..]
          invariant Tail(pile, card) == Tail(pile[..k], card) + pile[k..]
        {
          assert pile[..k - 1] == pile[..k][..k - 1];
          assert pile[k - 1..] == [pile[k - 1]] + pile[k..];
          assert (group + [pile[k - 1]])[..|group|] == group;
          group := group + [pile[k - 1]];
          k := k - 1;
        }
      }
      assert (group + [card])[..|group|] == group;
      group := group + [card];
      g := Reverse(group);
    }

    /** `for c in cardgroup: c.container.removeCard(c); Tableau.addCard(c, faceup=True, index=d)`. */
    method MoveGroup(g: seq<Card>, d: int)
      requires CanMoveAll(Snapshot(), g, d)
      modifies this
      ensures Snapshot() == MoveAll(old(Snapshot()), g, d)
    {
      var i := 0;
      while i < |g|
        invariant 0 <= i <= |g|
        invariant CanMoveAll(Snapshot(), g[i..], d)
        invariant MoveAll(Snapshot(), g[i..], d) == MoveAll(old(Snapshot()), g, d)
      {
        var c := g[i];
        assert g[i..][0] == c && g[i..][1..] == g[i + 1..];
        RemoveCard(c);
        AddCard(Tableau, c, true, d);
        i := i + 1;
      }
    }

    /** `card.container.removeCard(card)` then `Foundation.addCard(card, faceup=True, index=i)`. */
    method ToFoundationPile(card: Card, i: int)
      requires Removable(Snapshot(), card) && 0 <= i < 4 && |Removed(Snapshot(), card).foundation| == 4
      modifies this
      ensures Snapshot() == ToFoundation(old(Snapshot()), card, i).table
    {
      RemoveCard(card);
      AddCard(Foundation, card, true, i);
    }

    /** The end of `CheckMove` and of `CheckAutomaticMoves`: collect the `cardgroup` and move it onto tableau pile d. */
    method CarryGroup(card: Card, d: int)
      requires CanCarry(Snapshot(), card, d)
      modifies this
      ensures Snapshot() == Carry(old(Snapshot()), card, d)
    {
      Carried(Snapshot(), card, d);
      var g := CardGroup(card);
      MoveGroup(g, d);
    }

    /**
     * The foundation loop of `CheckAutomaticMoves`: the first pile whose top
     * the card builds on, or whose slot takes the card as its Ace; -1 when
     * none does or when the card has tableau cards on it.
     */
    method FoundationSpot(card: Card) returns (i: int)
      requires Draggable(Snapshot(), card)
      ensures i == if Buried(Snapshot(), card) then -1 else FoundationFit(Snapshot(), card, 0)
    {
      ghost var t := Snapshot();
      Located(t, multiset{}, card);
      i := 0;
      while i < 4
        invariant 0 <= i <= 4
        invariant forall j | 0 <= j < i :: !FoundationTakes(t, card, j)
        invariant i > 0 ==> !Buried(t, card)
      {
        if place[card].container == Some(Tableau) && Last(tableau[place[card].index]) != card {
          return -1;
        }
        var stack := foundation[i];
        if stack != [] {
          var top := Last(stack);
          if top.value == card.value - 1 && top.symbol == card.symbol {
            return i;
          }
        } else if card.value == 1 && card.symbol == Suits[i] {
          return i;
        }
        i := i + 1;
      }
      return -1;
    }

    /** The tableau loop of `CheckAutomaticMoves`: the first pile whose top the card stacks on, or that is empty when the card is a King; -1 when none does. */
    method TableauSpot(card: Card) returns (d: int)
      requires |tableau| == 7
      ensures d == TableauFit(Snapshot(), card, 0)
    {
      d := 0;
      while d < 7
        invariant 0 <= d <= 7
        invariant forall j | 0 <= j < d :: !TableauTakes(Snapshot(), card, j)
      {
        var stack := tableau[d];
        var takes := if stack != [] then Last(stack).value - 1 == card.value && Last(stack).symbol in OppositeSuits(card.symbol)
          else card.value == 13;
        if takes {
          return d;
        }
        d := d + 1;
      }
      return -1;
    }

    /** `CheckAutomaticMoves(card)`: the foundation loop, then the tableau loop. */
    method CheckAutomaticMoves(card: Card) returns (moved: bool)
      requires Draggable(Snapshot(), card)
      modifies this
      ensures moved == AutoMoved(old(Snapshot()), card).moved
      ensures Snapshot() == AutoMoved(old(Snapshot()), card).table
    {
      ghost var t := Snapshot();
      Located(t, multiset{}, card);
      if place[card].container == Some(Waste) && Last(waste[0]) != card {
        return false;
      }
      var i := FoundationSpot(card);
      if i != -1 {
        Uncovered(t, card);
        RemovedPiles(t, card);
        ToFoundationPile(card, i);
        return true;
      }
      var d := TableauSpot(card);
      if d != -1 {
        NotOwnPile(t, card, d);
        CarryGroup(card, d);
        return true;
      }
      return false;
    }

    /** `CheckMove(card, destination)`: its branch for a destination card, or for an empty slot. */
    method CheckMove(card: Card, dest: Target) returns (moved: bool)
      requires Draggable(Snapshot(), card) && DropTarget(Snapshot(), card, dest)
      modifies this
      ensures moved == Moved(old(Snapshot()), card, dest).moved
      ensures Snapshot() == Moved(old(Snapshot()), card, dest).table
    {
      match dest {
        case OnCard(c) => moved := CheckMoveOnCard(card, c);
        case OnSlot(n) => moved := CheckMoveOnSlot(card, n);
      }
    }

    /**
     * `CheckMove` for a drop on card c. A destination card that `releaseCard`
     * returns lies in the tableau when it does not lie on a foundation.
     */
    method CheckMoveOnCard(card: Card, c: Card) returns (moved: bool)
      requires Draggable(Snapshot(), card) && DropTarget(Snapshot(), card, OnCard(c))
      modifies this
      ensures moved == MovedOnCard(old(Snapshot()), card, c).moved
      ensures Snapshot() == MovedOnCard(old(Snapshot()), card, c).table
    {
      ghost var t := Snapshot();
      Located(t, multiset{}, card);
      if place[c].container == Some(Foundation) {
        if place[card].container == Some(Tableau) && Last(tableau[place[card].index]) != card {
          return false;
        }
        if c.value == card.value - 1 && c.symbol == card.symbol {
          OnFoundationCard(t, card, c);
          Uncovered(t, card);
          RemovedPiles(t, card);
          ToFoundationPile(card, place[c].index);
          return true;
        }
        return false;
      } else if c.value - 1 == card.value && c.symbol in OppositeSuits(card.symbol) {
        var index := place[c].index;
        NotOwnPile(t, card, index);
        CarryGroup(card, index);
        return true;
      }
      return false;
    }

    /** `CheckMove` for a drop on the empty slot n: a tableau slot 0..6 or a foundation slot 10..13. */
    method CheckMoveOnSlot(card: Card, n: int) returns (moved: bool)
      requires Draggable(Snapshot(), card)
      modifies this
      ensures moved == MovedOnSlot(old(Snapshot()), card, n).moved
      ensures Snapshot() == MovedOnSlot(old(Snapshot()), card, n).table
    {
      ghost var t := Snapshot();
      Located(t, multiset{}, card);
      if 0 <= n < 7 && card.value == 13 && tableau[n] == [] {
        CarryGroup(card, n);
        return true;
      } else if 10 <= n < 14 {
        if place[card].container == Some(Tableau) && Last(tableau[place[card].index]) != card {
          return false;
        }
        if card.value == 1 && card.symbol == Suits[n - 10] {
          OnSlotAce(t, card, n);
          ToFoundationPile(card, n - 10);
          return true;
        }
      }
      return false;
    }

    // -------------------------------------------------------------------
    // validateMove and validMove
    // -------------------------------------------------------------------

    /** `card.container.validateMove(card, destination)`, with the `Tableau` and `Stock` overrides. */
    method ValidateMove(card: Card, dest: Option<Target>) returns (r: bool)
      requires Clickable(Snapshot(), card, dest)
      modifies this
      ensures r == Validated(old(Snapshot()), card, dest).moved
      ensures Snapshot() == Validated(old(Snapshot()), card, dest).table
    {
      ghost var t := Snapshot();
      Located(t, multiset{}, card);
      PlayableDraggable(t, card, dest);
      if place[card].container == Some(Stock) {
        r := StockValidateMove(card);
        return;
      }
      if place[card].container == Some(Tableau) && place[card].state == FaceDown {
        return false;
      }
      r := ContainerValidateMove(card, dest);
    }

    /** `CardContainer.validateMove`, which the `Tableau` override calls for a face-up card. */
    method ContainerValidateMove(card: Card, dest: Option<Target>) returns (r: bool)
      requires Clickable(Snapshot(), card, dest) && Playable(Snapshot(), card)
      modifies this
      ensures r == Validated(old(Snapshot()), card, dest).moved
      ensures Snapshot() == Validated(old(Snapshot()), card, dest).table
    {
      ghost var t := Snapshot();
      PlayableDraggable(t, card, dest);
      var moved;
      if dest.None? {
        moved := CheckAutomaticMoves(card);
      } else {
        moved := CheckMove(card, dest.value);
      }
      ghost var o := Checked(t, card, dest);
      CheckAutoComplete();
      var won := CheckWin();
      if won {
        return false;
      }
      return moved;
    }

    /** `Card.validMove(destination)`: true for every card that lies in a container, whatever `validateMove` said. */
    method ValidMove(card: Card, dest: Option<Target>) returns (r: bool)
      requires card in place
      requires place[card].container.Some? ==> Clickable(Snapshot(), card, dest)
      modifies this
      ensures r == Validation.ValidMove(old(Snapshot()), card, dest).moved
      ensures Snapshot() == Validation.ValidMove(old(Snapshot()), card, dest).table
    {
      if place[card].container != None {
        var _ := ValidateMove(card, dest);
        return true;
      }
      return false;
    }

    // -------------------------------------------------------------------
    // AutoComplete
    // -------------------------------------------------------------------

    /** The `topfountain` loop: each foundation pile's top value, 0 for an empty pile. */
    method FoundationTops() returns (top: seq<int>)
      requires |foundation| == 4
      ensures top == Tops(Snapshot())
    {
      top := [];
      var i := 0;
      while i < |foundation|
        invariant 0 <= i <= 4 && |top| == i
        invariant forall j | 0 <= j < i :: top[j] == TopValue(foundation[j])
      {
        var v := if foundation[i] != [] then Last(foundation[i]).value else 0;
        top := top + [v];
        i := i + 1;
      }
    }

    /** The `toptableau` loop: the top card of each non-empty tableau pile. */
    method TableauTopCards() returns (tops: seq<Card>)
      ensures tops == TableauTops(tableau)
    {
      tops := [];
      var i := 0;
      while i < |tableau|
        invariant 0 <= i <= |tableau| && tops == TableauTops(tableau[..i])
      {
        assert tableau[..i + 1][..i] == tableau[..i];
        if tableau[i] != [] {
          tops := tops + [Last(tableau[i])];
        }
        i := i + 1;
      }
      assert tableau[..i] == tableau;
    }

    /** The candidate loop of a pass, up to its `break`: the position of the first ready candidate, or -1. */
    method FirstCandidate(top: seq<int>, cs: seq<Card>) returns (k: int)
      requires Total(place) && |top| == 4
      ensures k == FirstReady(Snapshot(), top, cs, 0)
    {
      k := 0;
      while k < |cs|
        invariant 0 <= k <= |cs|
        invariant forall j | 0 <= j < k :: !Ready(Snapshot(), top, cs[j])
      {
        var card := cs[k];
        if place[card].container != Some(Foundation) {
          var si := SuitIndex(card.symbol);
          if card.value == top[si] + 1 {
            return k;
          }
        }
        k := k + 1;
      }
      return -1;
    }

    /** The move of a pass: `removeCard`, then `addCard(card, True, i)` on the suit's foundation pile. */
    method SweepCard(card: Card)
      requires Valid() && card in Candidates(Snapshot()) && Ready(Snapshot(), Lengths(Snapshot()), card)
      modifies this
      ensures Snapshot() == Swept(old(Snapshot()), card)
    {
      SweepStep(Snapshot(), card);
      RemoveCard(card);
      AddCard(Foundation, card, true, SuitIndex(card.symbol));
    }

    /** The search of a pass: the candidates, and the position of the first ready one or -1. */
    method FindReady(top: seq<int>) returns (cs: seq<Card>, k: int)
      requires Valid() && top == Lengths(Snapshot())
      ensures cs == Candidates(Snapshot()) && k == FirstReady(Snapshot(), Lengths(Snapshot()), cs, 0)
    {
      var tops := TableauTopCards();
      cs := waste[0] + tops + stock[0];
      k := FirstCandidate(top, cs);
    }

    /** One pass of the `while Run` loop: the first ready candidate goes to its suit's foundation pile. */
    method Pass(top: seq<int>) returns (run: bool, top': seq<int>)
      requires Valid() && top == Lengths(Snapshot())
      modifies this
      ensures Outcome(run, Snapshot()) == PassOnce(old(Snapshot()))
      ensures Valid() && top' == Lengths(Snapshot())
    {
      ghost var t := Snapshot();
      var cs, k := FindReady(top);
      if k == -1 {
        PassEnds(t);
        return false, top;
      }
      PassMovesTo(t, k);
      var card := cs[k];
      var si := SuitIndex(card.symbol);
      SweptLengths(t, card);
      SweepCard(card);
      return true, top[si := top[si] + 1];
    }

    /** `AutoComplete`: nothing unless `Autocompletable`; otherwise pass after pass until one moves nothing. */
    method AutoComplete()
      requires Valid()
      modifies this
      ensures Snapshot() == Completed(old(Snapshot()))
    {
      if !autocompletable {
        return;
      }
      RunPasses();
      autocompletable := false;
      var won := CheckWin();
    }

    /** The `while Run` loop of `AutoComplete`, `topfountain` read from the foundation first. */
    method RunPasses()
      requires Valid() && autocompletable
      modifies this
      ensures Valid() && Snapshot() == Sweep(old(Snapshot()))
    {
      ghost var t0 := Snapshot();
      TopsAreLengths(t0);
      var top := FoundationTops();
      var run := true;
      CardCount(t0);
      while run
        invariant Valid() && top == Lengths(Snapshot()) && autocompletable
        invariant run ==> Sweep(Snapshot()) == Sweep(t0)
        invariant !run ==> Snapshot() == Sweep(t0)
        invariant SumLengths(foundation) <= 52
        decreases 52 - SumLengths(foundation) + (if run then 1 else 0)
      {
        run, top := Pass(top);
        CardCount(Snapshot());
      }
    }
  }

  /** The fields of the cards after `updateOrder` has restacked the waste cards from position m up. */
  ghost function Refanned(p: map<Card, Placement>, w: seq<Card>, m: int): map<Card, Placement>
    requires 0 <= m <= |w|
  {
    map c | c in p :: if c in w[m..] then Fanned(p[c], |w|, m + IndexOf(w[m..], c)) else p[c]
  }

  /** One more card of the waste restacked, the one below those already done. */
  lemma RefanStep(p: map<Card, Placement>, w: seq<Card>, m: int)
    requires 0 < m <= |w|
    ensures var q, c := Refanned(p, w, m), w[m - 1];
      Refanned(p, w, m - 1) ==
        if c in q then q[c := q[c].(zValue := m, slot := Min(|w| - m, 2), dragEnabled := m == |w|)] else q
  {
    assert w[m - 1..] == [w[m - 1]] + w[m..];
    assert w[m - 1..][1..] == w[m..];
  }

  /** The fields of the cards after the first n cards of `perm` have been dealt. */
  ghost function DealtSoFar(p: map<Card, Placement>, perm: seq<Card>, n: int): map<Card, Placement>
    requires 0 <= n <= |perm| == 52
  {
    map c | c in p.Keys + (set x | x in perm[..n]) :: if c in perm[..n] then DealtPlace(IndexOf(perm, c)) else p[c]
  }

  /** Dealing card i of the permutation onto the stock, face down. */
  lemma StockDealtOne(t: Table, perm: seq<Card>, i: int)
    requires |perm| == 52 && 0 <= i < StockSize && t.stock == [perm[..i]]
    ensures Added(t, Stock, perm[i], false, 0) == t.(stock := [perm[..i + 1]], place := t.place[perm[i] := DealtPlace(i)])
  {
    assert perm[..i + 1] == perm[..i] + [perm[i]];
  }

  lemma DealtSoFarStep(p: map<Card, Placement>, perm: seq<Card>, n: int)
    requires multiset(perm) == multiset(FullDeck()) && |perm| == 52 && 0 <= n < 52
    ensures DealtSoFar(p, perm, n)[perm[n] := DealtPlace(n)] == DealtSoFar(p, perm, n + 1)
  {
    PermIndex(perm, n);
    assert perm[..n + 1] == perm[..n] + [perm[n]];
    var L, R := DealtSoFar(p, perm, n)[perm[n] := DealtPlace(n)], DealtSoFar(p, perm, n + 1);
    forall c | c in perm[..n]
      ensures c != perm[n]
    {
      var j := IndexOf(perm[..n], c);
      PermIndex(perm, j);
    }
    assert L.Keys == R.Keys;
    forall c | c in L
      ensures L[c] == R[c]
    {
      if c != perm[n] {
        assert c in perm[..n + 1] <==> c in perm[..n];
      }
    }
  }

  /** The card dealt j-th onto column i gets the fields `DealtPlace` names for its deal position. */
  lemma DealtCellStep(p: map<Card, Placement>, perm: seq<Card>, i: nat, j: nat, m: int)
    requires multiset(perm) == multiset(FullDeck()) && |perm| == 52
    requires i < 7 && j <= i && m == StockSize + Tri(i) + j
    ensures m < 52
    ensures DealtSoFar(p, perm, m)[perm[m] := Put(Tableau, i == j, i, j + 1)] == DealtSoFar(p, perm, m + 1)
  {
    ColumnOfCell(i, j);
    DealtSoFarStep(p, perm, m);
  }

  lemma DealtSoFarAll(t: Table, perm: seq<Card>)
    requires multiset(perm) == multiset(FullDeck()) && |perm| == 52
    ensures DealtSoFar(t.place, perm, 52) == Dealt(t, perm).place
  {
    assert perm[..52] == perm;
    forall c
      ensures c in perm
    {
      PermHoldsAll(perm, c);
    }
  }

  /** A table laid out as the deal leaves it is the table `Dealt` describes. */
  lemma DealtFrom(t: Table, perm: seq<Card>, u: Table)
    requires multiset(perm) == multiset(FullDeck()) && |perm| == 52
    requires u.foundation == [[], [], [], []] && u.stock == [perm[..StockSize]] && u.waste == [[]]
    requires |u.tableau| == 7 && forall d | 0 <= d < 7 :: u.tableau[d] == Column(perm, d)
    requires u.place == DealtSoFar(t.place, perm, 52)
    requires u.allCards == perm && u.autocompletable == t.autocompletable
    ensures u == Dealt(t, perm)
  {
    DealtSoFarAll(t, perm);
    assert u.tableau == Dealt(t, perm).tableau;
  }
}
