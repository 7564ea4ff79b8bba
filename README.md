# Klondike rules engine

A Dafny model of the rules of the Klondike solitaire game in `main.py`, a
PyQt window. The model covers:

- the four card containers (`Foundation` with four piles, `Tableau` with
  seven, `Stock` and `Waste` with one each) and the fields every `Card`
  carries about where it lies (`State`, `Index`, `Z_Value`, `container`,
  `_drag_enabled`, and the fan slot of a waste card);
- `addCard` and `removeCard` with the `Tableau` and `Waste` overrides,
  `Waste.updateOrder`, `Stock.reload` and `Stock.validateMove`;
- the deal (`initCards`, `ShuffleCards`);
- the two move validators: `CheckMove` for a drop, `CheckAutomaticMoves`
  for a click;
- the entry points `validateMove` and `validMove`;
- the end game: `CheckWin`, `CheckAutoComplete` and `AutoComplete`.

The model has two layers.

- **Functions.** Each operation is a function from one `Table` value to the
  next (`Containers`, `CheckMoves`, `AutomaticMoves`, `Completion`,
  `Validation`, `Dealing`). A table is the piles of the four containers, a
  map from each card to its fields, `all_cards` and `Autocompletable`.
- **The class.** `Solitaire.Game` holds the same state in mutable fields.
  Its methods are the source's loops and in-place updates. Each method is
  proved to leave exactly the table that its function gives.

The table is consistent when `Containers.Inv` holds:

- every card lies in exactly one pile, once;
- each card's `Index` and `container` say which pile it lies in; outside the
  stock, its `Z_Value` is its height in that pile;
- foundation pile i holds Ace, 2, ... of `suits[i]` in order;
- above a face-up tableau card lie only face-up cards, each one rank lower
  and of the other colour;
- every stock card lies face down;
- the waste is fanned as `updateOrder` leaves it.

Every move, the deal and `AutoComplete` are proved to keep the table
consistent.

The modules, in dependency order:

- `cards.dfy` (PlayingCards): the suits and `oppositeSuits`;
- `piles.dfy` (Piles): list operations;
- `containers.dfy` (Containers): the table, the container operations and
  the invariant;
- `facts.dfy` (ContainerFacts): how each container operation keeps the
  invariant;
- `rules.dfy` (Rules): the card group a move carries, and the proof that
  moving it is sound;
- `checkmove.dfy` (CheckMoves);
- `automatic.dfy` (AutomaticMoves);
- `complete.dfy` (Completion);
- `validate.dfy` (Validation);
- `deal.dfy` (Dealing);
- `solitaire.dfy` (Solitaire): the class.

## Model

| member | source | states |
|---|---|---|
| PlayingCards.OppositeSuits | main.py:558-561 | the `oppositeSuits` entry of a suit is two different suits, exactly the suits of the other colour |
| PlayingCards.SuitIndex | main.py:557 | the position of a suit in `suits`, and the only position holding it (`suits.index`) |
| PlayingCards.FullDeckOnce | main.py:569-574 | the 52 cards `initCards` creates hold every (rank, suit) card exactly once |
| Piles.RemoveFirst | main.py:197-198 | `list.remove`: the result has one occurrence of the card fewer and is one shorter when the card is present; a list without the card is returned unchanged |
| Piles.Reverse | main.py:290-292 | the reversed list has the same length, and position i holds the element at position n-1-i |
| ContainerFacts.AddedPlaces | main.py:185-193 | `addCard(card, faceup, i)` appends the card to pile i of its container and to no other pile; it records `State` from `faceup`, `Index` i, `Z_Value` the new pile length, `container` and `_drag_enabled` equal to `faceup`; nothing else changes |
| ContainerFacts.AddedFoundation | main.py:185-193 | adding the next card of `suits[i]` (rank = pile length + 1) to foundation pile i keeps the table consistent |
| ContainerFacts.AddedTableau | main.py:185-193 | adding a card face up to an empty tableau pile, or onto a top one rank higher of the other colour, keeps the table consistent |
| ContainerFacts.AddedStock | main.py:185-193 | adding a card face down to the stock keeps the table consistent |
| ContainerFacts.AddedWaste | main.py:294-298 | adding a card to the waste and restacking it keeps the table consistent |
| ContainerFacts.RemovedFoundation | main.py:195-199 | removing a foundation pile's top shortens that pile by its last card and keeps the table consistent, the card lifted out |
| ContainerFacts.RemovedStock | main.py:195-199 | removing a stock card (any position) keeps the table consistent, the card lifted out |
| ContainerFacts.RemovedTableau | main.py:257-268 | `Tableau.removeCard` of a pile's top drops exactly that card and keeps the table consistent, including a face-up top |
| ContainerFacts.TableauRemovedPlaces | main.py:257-268 | after `Tableau.removeCard`, the cards left keep their fields, except the new top, which is turned face up and made draggable |
| ContainerFacts.RemovedWaste | main.py:319-321 | `Waste.removeCard` removes the first occurrence of the card from the waste and keeps the table consistent |
| ContainerFacts.RemovedPiles | main.py:195-199 | `removeCard` changes only pile `Index` of the card's own container, by `list.remove`; `all_cards` and the flag are unchanged |
| ContainerFacts.RemovedStates | main.py:257-268 | `removeCard` turns no card face down: every other card keeps its `State` or becomes face up |
| ContainerFacts.OneCardMoved | main.py:185-199 | `removeCard` followed by `addCard` onto another pile is a move of that card alone: out of its pile by `list.remove`, onto the top of the other, no other pile changed |
| ContainerFacts.RemovedLifted | main.py:195-199 | removing a card that lies on top of its pile (any card of the stock or waste) keeps the table consistent, the card lifted out |
| ContainerFacts.ReorderFans | main.py:307-312 | `updateOrder` gives the waste card at position j (from the bottom) `Z_Value` j+1 and fan slot `min(n-1-j, 2)`; only the top card is draggable; cards off the waste are untouched |
| ContainerFacts.AdvancedShape | main.py:294-298 | `Stock.validateMove` removes the card from the stock and puts it face up, draggable, on top of the waste; the foundation, the tableau and the flag are unchanged |
| ContainerFacts.AdvancedKeeps | main.py:294-298 | `Stock.validateMove` keeps the table consistent |
| ContainerFacts.ReloadedPiles | main.py:289-292 | `reload` appends the waste to the stock in reverse order and empties the waste; the other containers are unchanged |
| ContainerFacts.ReloadedPlaces | main.py:289-292 | after `reload` every former waste card lies face down on the stock; no other card's fields change |
| ContainerFacts.ReloadedKeeps | main.py:289-292 | `reload` keeps the table consistent |
| Rules.TailIsSuffix | main.py:721-728 | in a pile holding the card once, the `cardgroup` loop (scan from the top down to the card, then reverse) yields the pile from the card up, in order |
| Rules.GroupOfTableau | main.py:721-728 | the group of a tableau card is the suffix of its pile starting at the card |
| Rules.RunFaceUp | main.py:257-268 | in a well-formed tableau pile, every card above a face-up card is face up |
| Rules.RunValues | main.py:702-704 | in a consistent tableau pile, ranks fall by exactly one per card from a face-up card upwards, as the stacking rule builds them |
| Rules.NotOwnPile | main.py:702-704 | a face-up tableau card that stacks on pile d's top (or is offered to an empty pile d) does not lie in pile d, so a group is never moved onto its own pile |
| Rules.TailMoved | main.py:729-731 | moving the tail of pile s from position k onto pile d, card by card: pile s keeps its first k cards, pile d becomes old d ++ tail in order, no other pile changes, the other containers are unchanged and the table stays consistent |
| Rules.Carried | main.py:721-732 | moving a card's group onto tableau pile d leaves a consistent table: pile d becomes old d ++ the group; a tableau source pile keeps exactly the cards below the group, a card from another container leaves its pile by `list.remove`; no other pile changes, nor `all_cards` or the flag |
| Rules.TailGroupMoved | main.py:729-731 | moving the tail of the card's own pile from the card up (pile s keeps its first k cards, pile d gains the tail, nothing else changes) is a move of the card's group |
| CheckMoves.Carry | main.py:721-732 | the `cardgroup` move leaves a consistent table: pile d becomes old d ++ the group, the source pile loses exactly the group, and no other pile changes |
| CheckMoves.ToFoundationMoves | main.py:698-699 | `removeCard` then `Foundation.addCard(card, True, i)` takes the card out of its own pile and puts it face up on top of foundation pile i, `Z_Value` the new length; no other pile changes |
| CheckMoves.MovedKeeps | main.py:688-732 | every outcome of `CheckMove` is a consistent table |
| CheckMoves.MovedToFoundation | main.py:693-718 | a drop on foundation pile i (its top card or its slot 10+i) moves iff the card has nothing on it and is the next card of `suits[i]`; the card then comes out of its own pile and lies on top of pile i, face up, `Z_Value` its rank; no other pile changes |
| CheckMoves.MovedOnFoundationTop | main.py:693-701 | a drop on the top card of foundation pile i moves iff the card has nothing on it and is the next card of `suits[i]`; the card then comes out of its own pile onto pile i, face up, and no other pile changes |
| CheckMoves.MovedOnFoundationSlot | main.py:709-718 | a drop on the empty slot 10+i moves iff the card has nothing on it and is the Ace of `suits[i]`; the card then comes out of its own pile onto pile i, face up, and no other pile changes |
| CheckMoves.SlotAceMove | main.py:709-718 | an uncovered Ace of `suits[i]` dropped on the empty slot 10+i is not a foundation card, and the drop is exactly the move onto foundation pile i |
| CheckMoves.MovedToTableau | main.py:702-732 | a drop on tableau pile d moves iff the pile is empty and the card is a King, or the drop is on its top and the card is one rank lower and of the other colour; pile d then is old d ++ the card's group, the source pile loses exactly the group, and no other pile changes |
| CheckMoves.AceBackOnItsSlot | main.py:709-718 | dropping a foundation Ace back onto its own slot reports a move and leaves the table as it was |
| CheckMoves.FoundationTop | main.py:697 | on a consistent table, the top of foundation pile i is the card of `suits[i]` whose rank is the pile's length |
| CheckMoves.OnSlotAce | main.py:709-718 | an uncovered Ace of `suits[n-10]` dropped on slot n goes onto foundation pile n-10 |
| AutomaticMoves.FoundationFit | main.py:651-665 | the first foundation pile, in order 0..3, that takes the card, or -1 when none does |
| AutomaticMoves.TableauFit | main.py:666-673 | the first tableau pile, in order 0..6, that takes the card, or -1 when none does |
| AutomaticMoves.TakesNext | main.py:655-665 | on a consistent table, foundation pile i takes a card iff the card is of `suits[i]` and one rank above the pile's length |
| AutomaticMoves.AutoMovedKeeps | main.py:645-686 | every outcome of `CheckAutomaticMoves` is a consistent table |
| AutomaticMoves.AutoToFoundation | main.py:651-665 | an uncovered card that is the next card of its suit goes to foundation pile `suits.index(symbol)`, face up, `Z_Value` its rank; it leaves its own pile and no other pile changes; it is tried before any tableau pile |
| AutomaticMoves.AutoToTableau | main.py:666-685 | otherwise the card's group goes to the first tableau pile that takes it: pile d becomes old d ++ the group, the source pile loses exactly the group, and no other pile changes |
| AutomaticMoves.AutoRefused | main.py:649-686 | no move is made iff the card is a waste card under the waste top, or it cannot go to a foundation (it has cards on it, or it is not the next card of its suit) and no tableau pile takes it |
| Completion.WonIff | main.py:593-599 | on a consistent table, all four foundation piles hold 13 cards iff the tableau, the stock and the waste are empty |
| Completion.CardCount | main.py:593-599 | the containers of a consistent table hold 52 cards in all |
| Completion.FoundationAtMost13 | main.py:593-599 | no foundation pile holds more than 13 cards |
| Completion.AutoFlaggedIff | main.py:601-607 | `CheckAutoComplete` sets `Autocompletable` iff no tableau card lies face down, and keeps the table consistent |
| Completion.TopsAreLengths | main.py:614-620 | on a consistent table each `topfountain` entry (the top value, 0 for an empty pile) equals its pile's length |
| Completion.TableauTops | main.py:623-626 | `toptableau` holds exactly the top cards of the non-empty tableau piles |
| Completion.FirstReady | main.py:627-635 | the position of the first card of `waste + toptableau + stock` that is off the foundation and one rank above its suit's top, or -1 |
| Completion.SweepStep | main.py:628-635 | moving a ready card to foundation pile `suits.index(symbol)` takes it out of its own pile and appends it there, changes no other pile, adds one card to the foundations (at most 52) and keeps the table consistent |
| Completion.Swept | main.py:631-633 | one `AutoComplete` move: the card goes onto its suit's pile and no other foundation pile changes |
| Completion.SweptMoves | main.py:631-632 | that move takes the card out of its own pile (waste, tableau top or stock) and changes no pile but those two |
| Completion.SweptLengths | main.py:633 | after that move `topfountain[symbol_index] += 1` still gives the pile lengths |
| Completion.PassOnce | main.py:622-635 | one pass of the `while Run` loop moves at most one card; a pass that moves adds exactly one foundation card (the count stays at most 52, so the loop ends); a pass that moves nothing changes nothing |
| Completion.PassMovesOne | main.py:627-635 | a pass that moves takes one candidate card out of its own pile onto its suit's foundation pile and changes no other pile |
| Completion.PassMoves | main.py:627-635 | a pass moves iff some waste, tableau-top or stock card is one rank above its suit's foundation top |
| Completion.SweepKeeps | main.py:621-640 | the `AutoComplete` loop keeps the table consistent, `all_cards` and the flag untouched |
| Completion.Completed | main.py:609-643 | `AutoComplete` leaves a consistent table with `Autocompletable` cleared |
| Completion.StuckWon | main.py:621-640 | with no tableau card face down, a pass that moves nothing happens only on a won table |
| Completion.SweepWins | main.py:621-640 | with no tableau card face down, the loop ends with every foundation pile full |
| Completion.CompletedWins | main.py:609-643 | `AutoComplete` called with `Autocompletable` set and no tableau card face down wins the game |
| Completion.FlaggedCompletes | main.py:601-643 | whenever `CheckAutoComplete` sets the flag, `AutoComplete` then wins |
| Validation.Checked | main.py:206-211 | the first half of `validateMove` (`CheckAutomaticMoves` for a click, `CheckMove` for a drop) keeps the table consistent, and a refused move changes nothing |
| Validation.Validated | main.py:206-215 | every outcome of a container's `validateMove` is a consistent table |
| Validation.ValidatedStock | main.py:294-298 | a click on a stock card reports a move; the card comes off the stock and lies face up on top of the waste; the flag is not refreshed |
| Validation.ValidatedFaceDown | main.py:252-255 | `Tableau.validateMove` of a face-down card reports no move and changes nothing |
| Validation.ValidatedFlag | main.py:206-212 | after a move is tried, the flag says whether no tableau card lies face down |
| Validation.ValidatedReports | main.py:206-215 | a move that wins is reported as no move; any other result is what the validator reported; a refused move only refreshes the flag |
| Validation.ValidMove | main.py:77-82 | `validMove` reports true iff the card lies in a container, whether or not a move happened; a card without a container changes nothing |
| Dealing.DealtKeeps | main.py:578-591 | the deal leaves a consistent table |
| Dealing.DealtContents | main.py:578-591 | the deal places every card of the shuffled list exactly once |
| Dealing.DealtShape | main.py:578-591 | after the deal: 24 cards lie face down on the stock; tableau pile i holds i+1 cards, only the last face up; the foundations and the waste are empty; the flag is unchanged |
| Dealing.DealtFlattened | main.py:583-590 | the stock holds the first 24 shuffled cards and the tableau piles, in order, the other 28 |
| Dealing.ColumnsFlatten | main.py:586-590 | tableau columns 0..n-1 of the deal, put together in order, are exactly the shuffled cards that follow the 24 stock cards, with none skipped: column i starts where column i-1 ends |
| Solitaire.Game.constructor | main.py:456-460 | a new window (`initScene` clears `Autocompletable` at main.py:542, then `initCards`) holds a consistent, freshly dealt table with the flag false |
| Solitaire.Game.InitCards | main.py:554-576 | `initCards` empties the containers, builds `all_cards` suit by suit, Ace to King, and then leaves exactly the deal of the shuffled order `perm` |
| Solitaire.Game.AddCard | main.py:185-193 | the method leaves exactly the table `addCard` specifies |
| Solitaire.Game.BaseRemoveCard | main.py:195-199 | the inherited `removeCard`, including the no-op for an absent card |
| Solitaire.Game.TableauRemoveCard | main.py:257-268 | `Tableau.removeCard`, including turning the new top face up |
| Solitaire.Game.UpdateOrder | main.py:307-312 | the restacking loop over the reversed waste leaves the fields `Reorder` specifies |
| Solitaire.Game.WasteRemoveCard | main.py:319-321 | `Waste.removeCard` is the inherited removal followed by `updateOrder` |
| Solitaire.Game.RemoveCard | main.py:195-199 | `card.container.removeCard(card)`: dispatches to the removal of the card's own container, with the `Tableau` and `Waste` overrides |
| Solitaire.Game.Reload | main.py:289-292 | the `while` loop leaves the table `Reloaded` specifies |
| Solitaire.Game.StockValidateMove | main.py:294-298 | always returns true and leaves the table `Advanced` specifies |
| Solitaire.Game.ShuffleCards | main.py:578-591 | the reset and the two deal loops leave exactly the dealt table |
| Solitaire.Game.DealStock | main.py:584-585 | the first loop puts the first 24 cards, in order, face down on the stock |
| Solitaire.Game.DealTableau | main.py:586-590 | the second loop gives tableau pile d the cards of column d |
| Solitaire.Game.DealColumn | main.py:587-590 | one round of the second loop makes tableau pile i the i+1 cards after position n and records their fields; nothing else changes |
| Solitaire.Game.DealCard | main.py:588-590 | the j-th `addCard` of round i appends the next card, face up only when i == j |
| Solitaire.Game.CheckWin | main.py:593-599 | returns true iff every foundation pile holds 13 cards |
| Solitaire.Game.CheckAutoComplete | main.py:601-607 | the scan of `all_cards` sets the flag `AutoFlagged` specifies |
| Solitaire.Game.CardGroup | main.py:721-728 | the `cardgroup` loop (also at lines 674-681) returns the card's group |
| Solitaire.Game.MoveGroup | main.py:729-731 | the loop (also at lines 682-684) that moves the group card by card leaves the table `MoveAll` specifies |
| Solitaire.Game.FoundationSpot | main.py:651-665 | the foundation loop finds the first pile that takes the card, or -1 for a tableau card with cards on it |
| Solitaire.Game.TableauSpot | main.py:666-673 | the tableau loop finds the first pile that takes the card, or -1 |
| Solitaire.Game.CheckAutomaticMoves | main.py:645-686 | returns and leaves exactly what `AutoMoved` specifies |
| Solitaire.Game.CheckMove | main.py:688-732 | returns and leaves exactly what `Moved` specifies |
| Solitaire.Game.CheckMoveOnCard | main.py:692-732 | the branch for a drop on a card, with the group move that follows it |
| Solitaire.Game.CheckMoveOnSlot | main.py:707-720 | the branch for a drop on slot 0..6 or 10..13, or on anything else |
| Solitaire.Game.ValidateMove | main.py:206-215 | returns and leaves exactly what `Validated` specifies, with the `Tableau` and `Stock` overrides of `validateMove` |
| Solitaire.Game.ContainerValidateMove | main.py:206-215 | the base `validateMove`, for a face-up card: returns and leaves exactly what `Validated` specifies |
| Solitaire.Game.ValidMove | main.py:77-82 | returns and leaves exactly what `Validation.ValidMove` specifies |
| Solitaire.Game.FoundationTops | main.py:614-620 | the `topfountain` loop |
| Solitaire.Game.TableauTopCards | main.py:623-626 | the `toptableau` loop |
| Solitaire.Game.FindReady | main.py:623-630 | builds `waste + toptableau + stock` and finds the first ready card in it, or -1 |
| Solitaire.Game.FirstCandidate | main.py:627-630 | the scan finds the first ready candidate, or -1 |
| Solitaire.Game.SweepCard | main.py:631-632 | `removeCard` then `Foundation.addCard` leave the table `Swept` specifies |
| Solitaire.Game.Pass | main.py:622-635 | one pass of the loop gives `PassOnce`, and the updated `topfountain` still equals the pile lengths |
| Solitaire.Game.RunPasses | main.py:614-640 | `topfountain` read from the foundation, then the `while Run` loop: leaves exactly the table `Sweep` specifies |
| Solitaire.Game.AutoComplete | main.py:609-643 | leaves exactly the table `Completed` specifies |

## Left out

- Rendering, animation and layout are not modelled: `ItemAnimator`, `updatePlace`, `setZValue`, `setPixmap`, `cardPosition` and every screen coordinate. Of a card's position only the fan slot `min(i, 2)` of a waste card and the pile number are kept.
- The mouse layer is replaced by preconditions. `mouseMoveEvent`, `moveStack` and the `100 + Z_Value` raise during a drag are left out. `Draggable`, `Clickable` and `DropTarget` state what `mousePressEvent`, `mouseReleaseEvent` and `releaseCard` can hand on. A drop target is a face-up tableau or foundation top other than the dragged card, or a slot number. `Draggable` and `Clickable` are wider than the mouse layer in one case: they admit a drop of a waste card under the waste top, which the window cannot produce, because `updateOrder` (main.py:311) turns off dragging for that card. For a click, `CheckAutomaticMoves` refuses such a card (main.py:649-650).
- `releaseCard`'s hit testing through `scene.items` is left out: it is a query of the Qt scene.
- A foundation card under its pile's top is taken as not clickable, because the top card covers it.
- Dropping onto a waste or stock card is excluded by `DropTarget`. `releaseCard` never returns one, so `CheckMove`'s fall-through for that case (which would move the group to tableau pile 0) is not modelled.
- `Tableau.removeCard` of a card absent from its pile calls an undefined `Warning.print`. The model excludes that case by the precondition `Removable`. The inherited `removeCard` keeps its silent no-op.
- `random.shuffle` is replaced by the parameter `perm`, any ordering of the 52 cards.
- `Clock` (`start`, `stop`, `reset`), `FunFacts`, `WinScreen.popUp`, `RoundedRect` and the auto-complete button's `show` and `hide` are left out. They have no effect on the rules.
- The `QEventLoop` / `QTimer` pause and `processEvents` inside `AutoComplete` are left out because they only yield to the interface.
- The background pictures of the foundation slots and the stock reload card are left out. `Stock.reload` is modelled as a method in its own right (`Game.Reload`).
- SVGManager.py is not part of this model.
- Solitaire.Game.ShuffleCards: like the source, it does not reset `Autocompletable`. The constructor clears the flag before `InitCards`, as `initScene` (main.py:542) does before `initCards` (main.py:460), and the deal keeps it.
- Completion.Sweep and the specification side of `AutoComplete` read each foundation top from the pile lengths. `Game.Pass` keeps the source's `topfountain` list and proves it equal to them.
- Solitaire.Game.AutoComplete: the `while Run` loop is the method `RunPasses`, and its body is split into `FindReady`, `Pass` and `SweepCard`. As at main.py:629-631, `symbol_index` is read before `removeCard`.
- Containers.Inv does not tie a stock card's `Z_Value` to its height in the stock. `AutoComplete` (main.py:631) and `Stock.validateMove` (main.py:294-298) take stock cards from the middle of the pile, so the cards above keep their old `Z_Value`.
- The move lemmas fix every pile after a move. They do not fix every other card's fields; the invariant constrains those instead.
