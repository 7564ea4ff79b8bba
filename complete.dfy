/**
 * The end of a game: `CheckWin`, `CheckAutoComplete` and `AutoComplete`, as
 * functions of the table, with what each one means for the cards.
 */
module Completion {
  import opened PlayingCards
  import opened Piles
  import opened Containers
  import opened ContainerFacts
  import opened Rules
  import opened CheckMoves

  // ---------------------------------------------------------------------
  // CheckWin
  // ---------------------------------------------------------------------

  /** `CheckWin`: every foundation pile holds 13 cards. */
  predicate Won(t: Table) {
    forall i | 0 <= i < |t.foundation| :: |t.foundation[i]| == 13
  }

  /** The number of cards on each of the four foundation piles. */
  function Lengths(t: Table): (r: seq<int>)
    requires |t.foundation| == 4
    ensures |r| == 4 && forall i | 0 <= i < 4 :: r[i] == |t.foundation[i]|
  {
    [|t.foundation[0]|, |t.foundation[1]|, |t.foundation[2]|, |t.foundation[3]|]
  }

  lemma SumOfFour(f: seq<seq<Card>>)
    requires |f| == 4
    ensures SumLengths(f) == |f[0]| + |f[1]| + |f[2]| + |f[3]|
  {
    assert f[..3][..2] == f[..2] && f[..2][..1] == f[..1] && f[..1][..0] == [];
    assert SumLengths(f[..1]) == |f[0]|;
    assert SumLengths(f[..2]) == |f[0]| + |f[1]|;
    assert SumLengths(f[..3]) == |f[0]| + |f[1]| + |f[2]|;
  }

  /** A foundation pile holds at most the 13 ranks of its suit. */
  lemma FoundationAtMost13(t: Table, i: int)
    requires Inv(t) && 0 <= i < 4
    ensures |t.foundation[i]| <= 13
  {
    var f := t.foundation[i];
    assert PileOk(Foundation, t.CardsOf(Foundation)[i], i, t.place);
    if f != [] {
      assert f[|f| - 1].value == |f|;
    }
  }

  /** The 52 cards are spread over the four containers. */
  lemma CardCount(t: Table)
    requires Inv(t)
    ensures SumLengths(t.foundation) + SumLengths(t.tableau) + SumLengths(t.stock) + SumLengths(t.waste) == 52
  {
    FlattenLength(t.foundation);
    FlattenLength(t.tableau);
    FlattenLength(t.stock);
    FlattenLength(t.waste);
    assert |Contents(t)| == |multiset(FullDeck())| == 52;
  }

  /** The game is won exactly when the tableau, the stock and the waste are empty. */
  lemma WonIff(t: Table)
    requires Inv(t)
    ensures Won(t) <==> (forall d | 0 <= d < 7 :: t.tableau[d] == []) && t.stock[0] == [] && t.waste[0] == []
  {
    CardCount(t);
    SumOfFour(t.foundation);
    FoundationAtMost13(t, 0);
    FoundationAtMost13(t, 1);
    FoundationAtMost13(t, 2);
    FoundationAtMost13(t, 3);
    SumZero(t.tableau);
    SumZero(t.stock);
    SumZero(t.waste);
    assert SumLengths(t.stock) == |t.stock[0]| by {
      assert t.stock[..0] == [];
    }
    assert SumLengths(t.waste) == |t.waste[0]| by {
      assert t.waste[..0] == [];
    }
  }

  // ---------------------------------------------------------------------
  // CheckAutoComplete
  // ---------------------------------------------------------------------

  /** No tableau pile holds a face-down card. */
  ghost predicate NoFaceDown(t: Table)
    requires Total(t.place)
  {
    forall d, j | 0 <= d < |t.tableau| && 0 <= j < |t.tableau[d]| :: t.place[t.tableau[d][j]].state == FaceUp
  }

  /** The loop of `CheckAutoComplete`: some card of `cards` lies face down in the tableau. */
  predicate AnyFaceDown(cards: seq<Card>, place: map<Card, Placement>)
    requires forall c :: c in place
  {
    exists c | c in cards :: place[c].state == FaceDown && place[c].container == Some(Tableau)
  }

  /** `CheckAutoComplete`: `Autocompletable` records whether no card of `all_cards` lies face down in the tableau. */
  function AutoFlagged(t: Table): (u: Table)
    requires forall c :: c in t.place
  {
    t.(autocompletable := !AnyFaceDown(t.allCards, t.place))
  }

  /** On a consistent table the flag says that no tableau card is face down. */
  lemma AutoFlaggedIff(t: Table)
    requires Inv(t)
    ensures Inv(AutoFlagged(t))
    ensures AutoFlagged(t).autocompletable <==> NoFaceDown(t)
  {
    FlagFree(t, !AnyFaceDown(t.allCards, t.place));
    if AnyFaceDown(t.allCards, t.place) {
      ListedFaceDown(t);
    }
    if !NoFaceDown(t) {
      FaceDownListed(t);
    }
  }

  /** A card of `all_cards` lying face down in the tableau lies in some tableau pile. */
  lemma ListedFaceDown(t: Table)
    requires Inv(t) && AnyFaceDown(t.allCards, t.place)
    ensures !NoFaceDown(t)
  {
    var c :| c in t.allCards && t.place[c].state == FaceDown && t.place[c].container == Some(Tableau);
    Located(t, multiset{}, c);
    var d := t.place[c].index;
    var j := IndexOf(t.tableau[d], c);
    assert t.place[t.tableau[d][j]].state == FaceDown;
  }

  /** A face-down tableau card is one of `all_cards`, and its fields say it lies in the tableau. */
  lemma FaceDownListed(t: Table)
    requires Inv(t) && !NoFaceDown(t)
    ensures AnyFaceDown(t.allCards, t.place)
  {
    var d, j :| 0 <= d < 7 && 0 <= j < |t.tableau[d]| && t.place[t.tableau[d][j]].state == FaceDown;
    var c := t.tableau[d][j];
    assert PileOk(Tableau, t.CardsOf(Tableau)[d], d, t.place);
    assert OnTableau(t.place[c], d, j);
    FullDeckOnce(c);
    assert c in multiset(t.allCards);
  }

  /** Changing only the flag keeps the table consistent. */
  lemma FlagFree(t: Table, b: bool)
    requires Inv(t)
    ensures Inv(t.(autocompletable := b))
  {
    var u := t.(autocompletable := b);
    assert forall k :: u.CardsOf(k) == t.CardsOf(k);
    assert Contents(u) == Contents(t);
  }

  // ---------------------------------------------------------------------
  // AutoComplete
  // ---------------------------------------------------------------------

  /** A pile's top value, 0 for an empty pile: the entries of `topfountain`. */
  function TopValue(pile: seq<Card>): int {
    if pile == [] then 0 else Last(pile).value
  }

  function Tops(t: Table): (r: seq<int>)
    requires |t.foundation| == 4
    ensures |r| == 4 && forall i | 0 <= i < 4 :: r[i] == TopValue(t.foundation[i])
  {
    [TopValue(t.foundation[0]), TopValue(t.foundation[1]), TopValue(t.foundation[2]), TopValue(t.foundation[3])]
  }

  /** On a consistent table `topfountain` starts as the number of cards on each foundation pile. */
  lemma TopsAreLengths(t: Table)
    requires Inv(t)
    ensures Tops(t) == Lengths(t)
  {
    forall i | 0 <= i < 4
      ensures TopValue(t.foundation[i]) == |t.foundation[i]|
    {
      var f := t.foundation[i];
      assert PileOk(Foundation, t.CardsOf(Foundation)[i], i, t.place);
      if f != [] {
        assert f[|f| - 1].value == |f|;
      }
    }
  }

  /** `toptableau`: the top cards of the non-empty tableau piles, left to right. */
  function TableauTops(ps: seq<seq<Card>>): (r: seq<Card>)
    ensures forall c :: c in r <==> exists d | 0 <= d < |ps| :: ps[d] != [] && Last(ps[d]) == c
  {
    if ps == [] then []
    else
      var n := |ps| - 1;
      assert forall d | 0 <= d < n :: ps[..n][d] == ps[d];
      TableauTops(ps[..n]) + (if ps[n] != [] then [Last(ps[n])] else [])
  }

  /** The cards `AutoComplete` looks at in one pass: the waste, the tableau tops, the stock. */
  function Candidates(t: Table): seq<Card>
    requires |t.waste| > 0 && |t.stock| > 0
  {
    t.waste[0] + TableauTops(t.tableau) + t.stock[0]
  }

  /** The test of the pass: the card is not on a foundation and is the next card of its suit's pile. */
  predicate Ready(t: Table, top: seq<int>, c: Card)
    requires forall x :: x in t.place
    requires |top| == 4
  {
    t.place[c].container != Some(Foundation) && c.value == top[SuitIndex(c.symbol)] + 1
  }

  /** The first ready card of `cs` from position i on (the `break` of the pass), or -1. */
  function FirstReady(t: Table, top: seq<int>, cs: seq<Card>, i: int): (r: int)
    requires forall x :: x in t.place
    requires |top| == 4 && 0 <= i <= |cs|
    ensures r == -1 || (i <= r < |cs| && Ready(t, top, cs[r]))
    ensures forall j | i <= j < (if r == -1 then |cs| else r) :: !Ready(t, top, cs[j])
    decreases |cs| - i
  {
    if i == |cs| then -1
    else if Ready(t, top, cs[i]) then i
    else FirstReady(t, top, cs, i + 1)
  }

  /** Every candidate can be taken by `removeCard`: any waste or stock card, and a tableau top. */
  lemma CandidateLiftable(t: Table, c: Card)
    requires Inv(t) && c in Candidates(t)
    ensures Liftable(t, c)
  {
    if c in t.waste[0] {
      var j := IndexOf(t.waste[0], c);
      assert PileOk(Waste, t.CardsOf(Waste)[0], 0, t.place);
      PileCardPlaced(Waste, t.waste[0], 0, t.place, j);
    } else if c in t.stock[0] {
      var j := IndexOf(t.stock[0], c);
      assert PileOk(Stock, t.CardsOf(Stock)[0], 0, t.place);
      PileCardPlaced(Stock, t.stock[0], 0, t.place, j);
    } else {
      assert c in TableauTops(t.tableau);
      var d :| 0 <= d < 7 && t.tableau[d] != [] && Last(t.tableau[d]) == c;
      assert PileOk(Tableau, t.CardsOf(Tableau)[d], d, t.place);
      PileCardPlaced(Tableau, t.tableau[d], d, t.place, |t.tableau[d]| - 1);
    }
  }

  /** One move of the pass: the ready candidate goes onto its suit's foundation pile. */
  lemma SweepStep(t: Table, c: Card)
    requires Inv(t) && c in Candidates(t) && Ready(t, Lengths(t), c)
    ensures Removable(t, c) && |Removed(t, c).foundation| == 4
    ensures var i := SuitIndex(c.symbol);
      var u := Added(Removed(t, c), Foundation, c, true, i);
      Inv(u) && CardMoved(t, u, c, Foundation, i) && u.foundation == t.foundation[i := t.foundation[i] + [c]] &&
      SumLengths(u.foundation) == SumLengths(t.foundation) + 1 && SumLengths(u.foundation) <= 52 &&
      u.allCards == t.allCards && u.autocompletable == t.autocompletable
  {
    var i := SuitIndex(c.symbol);
    CandidateLiftable(t, c);
    RemovedPiles(t, c);
    FoundationDrop(t, c, i);
    OneCardMoved(t, c, Foundation, i, true);
    var u := Added(Removed(t, c), Foundation, c, true, i);
    assert u.foundation == t.foundation[i := t.foundation[i] + [c]];
    SumGrown(t.foundation, i, c);
    CardCount(u);
  }

  /** Putting a card on foundation pile i adds one to that pile's length and to no other. */
  lemma LengthsGrown(t: Table, u: Table, i: int, c: Card)
    requires |t.foundation| == 4 && 0 <= i < 4 && u.foundation == t.foundation[i := t.foundation[i] + [c]]
    ensures Lengths(u) == Lengths(t)[i := Lengths(t)[i] + 1]
  {
  }

  /** One move of the pass as a table: `removeCard` then `addCard(card, True, i)` on the suit's foundation pile. */
  function Swept(t: Table, c: Card): (u: Table)
    requires Inv(t) && c in Candidates(t) && Ready(t, Lengths(t), c)
    ensures Total(u.place) && u.foundation == t.foundation[SuitIndex(c.symbol) := t.foundation[SuitIndex(c.symbol)] + [c]]
    ensures SumLengths(u.foundation) == SumLengths(t.foundation) + 1 && SumLengths(u.foundation) <= 52
    ensures u.allCards == t.allCards && u.autocompletable == t.autocompletable
  {
    SweepStep(t, c);
    Added(Removed(t, c), Foundation, c, true, SuitIndex(c.symbol))
  }

  /** A move of the pass takes exactly the card from where it lay onto its suit's pile and changes no other pile. */
  lemma SweptMoves(t: Table, c: Card)
    requires Inv(t) && c in Candidates(t) && Ready(t, Lengths(t), c)
    ensures CardMoved(t, Swept(t, c), c, Foundation, SuitIndex(c.symbol))
  {
    SweepStep(t, c);
  }

  /** A move of the pass keeps the table consistent. */
  lemma SweptKeeps(t: Table, c: Card)
    requires Inv(t) && c in Candidates(t) && Ready(t, Lengths(t), c)
    ensures Inv(Swept(t, c))
  {
    SweepStep(t, c);
  }

  /** A move of the pass adds one card to its suit's pile. */
  lemma SweptLengths(t: Table, c: Card)
    requires Inv(t) && c in Candidates(t) && Ready(t, Lengths(t), c)
    ensures var i := SuitIndex(c.symbol); Lengths(Swept(t, c)) == Lengths(t)[i := Lengths(t)[i] + 1]
  {
    LengthsGrown(t, Swept(t, c), SuitIndex(c.symbol), c);
  }

  /**
   * One pass of the `while Run` loop of `AutoComplete`: the first ready
   * candidate goes to its suit's foundation pile, and `Run` says whether one
   * was found. `topfountain` is kept equal to the pile heights, so the pass
   * reads them from the table.
   */
  function PassOnce(t: Table): (o: Outcome)
    requires Inv(t)
    ensures Inv(o.table) && o.table.allCards == t.allCards && o.table.autocompletable == t.autocompletable
    ensures o.moved ==> SumLengths(o.table.foundation) == SumLengths(t.foundation) + 1 <= 52
    ensures !o.moved ==> o.table == t
  {
    var cs := Candidates(t);
    var r := FirstReady(t, Lengths(t), cs, 0);
    if r == -1 then Outcome(false, t)
    else
      SweptKeeps(t, cs[r]);
      Outcome(true, Swept(t, cs[r]))
  }

  /** A pass moves a card exactly when some candidate is ready. */
  lemma PassMoves(t: Table)
    requires Inv(t)
    ensures PassOnce(t).moved <==> exists c :: c in Candidates(t) && Ready(t, Lengths(t), c)
  {
    var cs := Candidates(t);
    if c :| c in cs && Ready(t, Lengths(t), c) {
      var j := IndexOf(cs, c);
      assert Ready(t, Lengths(t), cs[j]);
    }
  }

  /** A pass that moves something moves exactly one candidate onto its suit's pile and changes no other pile. */
  lemma PassMovesOne(t: Table)
    requires Inv(t)
    ensures var o := PassOnce(t);
      o.moved ==> exists c :: c in Candidates(t) && CardMoved(t, o.table, c, Foundation, SuitIndex(c.symbol))
  {
    var cs := Candidates(t);
    var r := FirstReady(t, Lengths(t), cs, 0);
    if r != -1 {
      PassMovesTo(t, r);
      SweptMoves(t, cs[r]);
    }
  }

  /** A pass whose search finds nothing leaves the table alone. */
  lemma PassEnds(t: Table)
    requires Inv(t) && FirstReady(t, Lengths(t), Candidates(t), 0) == -1
    ensures PassOnce(t) == Outcome(false, t)
  {
  }

  /** A pass whose search finds candidate r moves that card. */
  lemma PassMovesTo(t: Table, r: int)
    requires Inv(t) && r == FirstReady(t, Lengths(t), Candidates(t), 0) && r != -1
    ensures Candidates(t)[r] in Candidates(t) && Ready(t, Lengths(t), Candidates(t)[r])
    ensures PassOnce(t) == Outcome(true, Swept(t, Candidates(t)[r]))
  {
  }

  /** The whole `while Run` loop: pass after pass until one moves nothing. */
  function Sweep(t: Table): Table
    requires Inv(t)
    decreases 52 - SumLengths(t.foundation)
  {
    var o := PassOnce(t);
    if o.moved then Sweep(o.table) else t
  }

  /** The loop of `AutoComplete` keeps the table consistent, `all_cards` and the flag untouched. */
  lemma {:induction false} SweepKeeps(t: Table)
    requires Inv(t)
    ensures var u := Sweep(t);
      Inv(u) && u.allCards == t.allCards && u.autocompletable == t.autocompletable
    decreases 52 - SumLengths(t.foundation)
  {
    var o := PassOnce(t);
    if o.moved {
      SweepKeeps(o.table);
    }
  }

  /** `AutoComplete`: nothing unless `Autocompletable`; otherwise sweep and clear the flag. */
  function Completed(t: Table): (u: Table)
    requires Inv(t)
    ensures Inv(u) && !u.autocompletable && u.allCards == t.allCards
  {
    if !t.autocompletable then t
    else
      SweepKeeps(t);
      var v := Sweep(t);
      FlagFree(v, false);
      v.(autocompletable := false)
  }

  // ---------------------------------------------------------------------
  // AutoComplete wins once no tableau card is face down
  // ---------------------------------------------------------------------

  /** A table whose tableau piles shrank and whose cards only turned face up has no face-down tableau card either. */
  lemma FacesKept(t: Table, u: Table)
    requires Total(t.place) && Total(u.place) && NoFaceDown(t) && |u.tableau| == |t.tableau|
    requires forall d | 0 <= d < |u.tableau| :: multiset(u.tableau[d]) <= multiset(t.tableau[d])
    requires forall x :: u.place[x].state == t.place[x].state || u.place[x].state == FaceUp
    ensures NoFaceDown(u)
  {
    forall d, j | 0 <= d < |u.tableau| && 0 <= j < |u.tableau[d]|
      ensures u.place[u.tableau[d][j]].state == FaceUp
    {
      var x := u.tableau[d][j];
      assert x in multiset(t.tableau[d]);
      var j' := IndexOf(t.tableau[d], x);
      assert t.place[t.tableau[d][j']].state == FaceUp;
    }
  }

  /** A move of the pass turns no tableau card face down. */
  lemma NoFaceDownKept(t: Table, c: Card)
    requires Inv(t) && NoFaceDown(t) && c in Candidates(t) && Ready(t, Lengths(t), c)
    ensures NoFaceDown(Swept(t, c))
  {
    CandidateLiftable(t, c);
    RemovedPiles(t, c);
    RemovedStates(t, c);
    RemovedShrinks(t, c);
    var u := Swept(t, c);
    assert u.tableau == Removed(t, c).tableau;
    FacesKept(t, u);
  }

  /** `removeCard` takes at most the card itself out of each tableau pile. */
  lemma RemovedShrinks(t: Table, c: Card)
    requires Removable(t, c)
    ensures |Removed(t, c).tableau| == |t.tableau|
    ensures forall d | 0 <= d < |t.tableau| :: multiset(Removed(t, c).tableau[d]) <= multiset(t.tableau[d])
  {
  }

  /** A card on a foundation pile is of that pile's suit and within its height. */
  lemma FoundationMember(t: Table, c: Card)
    requires Inv(t)
    ensures t.place[c].container == Some(Foundation) ==>
      0 <= t.place[c].index < 4 && c.symbol == Suits[t.place[c].index] &&
      c.value <= |t.foundation[t.place[c].index]|
  {
    if t.place[c].container == Some(Foundation) {
      Located(t, multiset{}, c);
      var i := t.place[c].index;
      var p := IndexOf(t.foundation[i], c);
      assert PileOk(Foundation, t.CardsOf(Foundation)[i], i, t.place);
    }
  }

  /** A card not on a foundation is above the height of its suit's pile. */
  lemma BelowLength(t: Table, c: Card)
    requires Inv(t)
    ensures t.place[c].container != Some(Foundation) ==> |t.foundation[SuitIndex(c.symbol)]| < c.value
  {
    var i := SuitIndex(c.symbol);
    var f := t.foundation[i];
    assert PileOk(Foundation, t.CardsOf(Foundation)[i], i, t.place);
    if |f| >= c.value {
      assert f[c.value - 1].value == c.value;
    }
  }

  /** With no card face down, each tableau card that is not a top is covered by the next lower card of the other colour. */
  lemma TopOfRun(t: Table, d: int, j: int)
    requires Inv(t) && NoFaceDown(t) && 0 <= d < 7 && 0 <= j < |t.tableau[d]|
    ensures j < |t.tableau[d]| - 1 ==>
      Stacks(t.tableau[d][j + 1], t.tableau[d][j]) && t.place[t.tableau[d][j + 1]].container == Some(Tableau)
  {
    var P := t.tableau[d];
    assert PileOk(Tableau, t.CardsOf(Tableau)[d], d, t.place);
    if j < |P| - 1 {
      assert t.place[P[j]].state == FaceUp;
      assert OnTableau(t.place[P[j + 1]], d, j + 1);
    }
  }

  /** The next card of the lowest foundation pile is not covered in the tableau. */
  lemma TopWhenLowest(t: Table, d: int, j: int, L: int)
    requires Inv(t) && NoFaceDown(t) && 0 <= d < 7 && 0 <= j < |t.tableau[d]|
    requires t.tableau[d][j].value == L + 1
    requires forall i | 0 <= i < 4 :: |t.foundation[i]| >= L
    ensures j == |t.tableau[d]| - 1
  {
    var P := t.tableau[d];
    var above := if j < |P| - 1 then P[j + 1] else P[j];
    TopOfRun(t, d, j);
    BelowLength(t, above);
  }

  /** The foundation pile with the fewest cards. */
  function Lowest(t: Table): (m: int)
    requires |t.foundation| == 4
    ensures 0 <= m < 4 && forall i | 0 <= i < 4 :: |t.foundation[m]| <= |t.foundation[i]|
  {
    var f := t.foundation;
    var a := if |f[0]| <= |f[1]| then 0 else 1;
    var b := if |f[a]| <= |f[2]| then a else 2;
    if |f[b]| <= |f[3]| then b else 3
  }

  /** Before the game is won, some candidate of a pass is ready: the next card of the lowest pile. */
  lemma ReadyWhenNotWon(t: Table) returns (c: Card)
    requires Inv(t) && NoFaceDown(t)
    ensures !Won(t) ==> c in Candidates(t) && Ready(t, Lengths(t), c)
  {
    c := Card(1, Spades);
    if !Won(t) {
      var m := Lowest(t);
      var L := |t.foundation[m]|;
      var n :| 0 <= n < 4 && |t.foundation[n]| != 13;
      FoundationAtMost13(t, n);
      c := Card(L + 1, Suits[m]);
      assert SuitIndex(c.symbol) == m;
      FoundationMember(t, c);
      Located(t, multiset{}, c);
      var k, i := t.place[c].container.value, t.place[c].index;
      if k == Tableau {
        var j := IndexOf(t.tableau[i], c);
        TopWhenLowest(t, i, j, L);
        assert c in TableauTops(t.tableau);
      }
    }
  }

  /** A pass that finds no ready card ends a won game. */
  lemma StuckWon(t: Table)
    requires Inv(t) && NoFaceDown(t) && !PassOnce(t).moved
    ensures Won(t)
  {
    var c := ReadyWhenNotWon(t);
    PassMoves(t);
  }

  /** A pass turns no tableau card face down. */
  lemma PassFaces(t: Table)
    requires Inv(t) && NoFaceDown(t)
    ensures NoFaceDown(PassOnce(t).table)
  {
    var cs := Candidates(t);
    var r := FirstReady(t, Lengths(t), cs, 0);
    if r != -1 {
      NoFaceDownKept(t, cs[r]);
    }
  }

  /** The loop of `AutoComplete` ends with all 52 cards on the foundations. */
  lemma {:induction false} SweepWins(t: Table)
    requires Inv(t) && NoFaceDown(t)
    ensures Won(Sweep(t))
    decreases 52 - SumLengths(t.foundation)
  {
    var o := PassOnce(t);
    if o.moved {
      PassFaces(t);
      SweepWins(o.table);
    } else {
      StuckWon(t);
    }
  }

  /** `AutoComplete` on a flagged table with no face-down tableau card wins the game. */
  lemma CompletedWins(t: Table)
    requires Inv(t) && t.autocompletable && NoFaceDown(t)
    ensures Won(Completed(t))
  {
    SweepWins(t);
  }

  /** `CheckAutoComplete` then `AutoComplete`: once the flag is set, the game is won. */
  lemma FlaggedCompletes(t: Table)
    requires Inv(t)
    ensures Inv(AutoFlagged(t))
    ensures AutoFlagged(t).autocompletable ==> Won(Completed(AutoFlagged(t)))
  {
    AutoFlaggedIff(t);
    var u := AutoFlagged(t);
    if u.autocompletable {
      assert u.place == t.place && u.tableau == t.tableau;
      assert NoFaceDown(u);
      CompletedWins(u);
    }
  }
}
