/**
 * The move rules of the game window: the tail of cards a move carries,
 * `CheckMove`, `CheckAutomaticMoves`, the deal, `CheckAutoComplete`,
 * `AutoComplete`, `CheckWin` and the `validateMove` / `validMove` entry
 * points, as functions from one table to the next.
 */
module Rules {
  import opened PlayingCards
  import opened Piles
  import opened Containers
  import opened ContainerFacts

  // ---------------------------------------------------------------------
  // The tail a move carries
  // ---------------------------------------------------------------------

  /**
   * The `cardgroup` (and `Stacklist`) loop: walk the pile down from its top,
   * collecting cards until the card itself, then add the card and reverse.
   */
  function Tail(pile: seq<Card>, card: Card): (g: seq<Card>)
    ensures |g| >= 1 && g[0] == card
  {
    if pile == [] then [card]
    else if Last(pile) == card then [card]
    else Tail(pile[..|pile| - 1], card) + [Last(pile)]
  }

  /** In a pile that holds the card once, the tail is the pile from the card up. */
  lemma {:induction false} TailIsSuffix(pile: seq<Card>, card: Card)
    requires multiset(pile)[card] == 1
    ensures Tail(pile, card) == pile[IndexOf(pile, card)..]
  {
    assert card in pile;
    var n := |pile| - 1;
    if Last(pile) == card {
      var k := IndexOf(pile, card);
      if k < n {
        TwiceCounted(pile, k, n);
      }
      assert k == n && pile[k..] == [card];
    } else {
      assert pile == pile[..n] + [Last(pile)];
      assert multiset(pile[..n])[card] == 1;
      TailIsSuffix(pile[..n], card);
      assert IndexOf(pile[..n], card) == IndexOf(pile, card);
    }
  }

  /** The cards a move of `card` carries: its tail when it lies in the tableau, the card alone otherwise. */
  function Group(t: Table, card: Card): (g: seq<Card>)
    requires card in t.place
    requires t.place[card].container == Some(Tableau) ==> 0 <= t.place[card].index < |t.tableau|
    ensures |g| >= 1 && g[0] == card
  {
    if t.place[card].container == Some(Tableau) then Tail(t.tableau[t.place[card].index], card) else [card]
  }

  /** What the loop `for c in cardgroup: c.container.removeCard(c); Tableau.addCard(c, True, d)` needs to run. */
  ghost predicate CanMoveAll(t: Table, g: seq<Card>, d: int)
    decreases |g|
  {
    g == [] ||
    (Removable(t, g[0]) && 0 <= d < |Removed(t, g[0]).tableau| &&
     CanMoveAll(Added(Removed(t, g[0]), Tableau, g[0], true, d), g[1..], d))
  }

  /** The cards of g, one by one from the bottom, taken from their containers onto tableau pile d. */
  function MoveAll(t: Table, g: seq<Card>, d: int): Table
    requires CanMoveAll(t, g, d)
    decreases |g|
  {
    if g == [] then t else MoveAll(Added(Removed(t, g[0]), Tableau, g[0], true, d), g[1..], d)
  }

  // ---------------------------------------------------------------------
  // Moving a tableau tail, step by step
  // ---------------------------------------------------------------------

  /** Above a face-up tableau card lie only face-up cards. */
  lemma {:induction false} RunFaceUp(pile: seq<Card>, i: int, place: map<Card, Placement>, k: int, a: int)
    requires Total(place) && TableauPileOk(pile, i, place)
    requires 0 <= k <= a < |pile| && place[pile[k]].state == FaceUp
    ensures place[pile[a]].state == FaceUp
    decreases a - k
  {
    if a > k {
      RunFaceUp(pile, i, place, k, a - 1);
    }
  }

  /** Tableau piles s and d are distinct, and position k lies in pile s. */
  ghost predicate Shape(t: Table, s: int, k: int, d: int) {
    Total(t.place) && |t.tableau| == 7 && 0 <= s < 7 && 0 <= d < 7 && s != d && 0 <= k < |t.tableau[s]|
  }

  /** What a tail move needs to know of its source pile: no card twice, each recorded where it lies, the top face up. */
  ghost predicate SourceOk(t: Table, s: int)
    requires Total(t.place) && 0 <= s < |t.tableau|
  {
    var P := t.tableau[s];
    (forall x :: multiset(P)[x] <= 1) &&
    (forall a | 0 <= a < |P| :: OnTableau(t.place[P[a]], s, a)) &&
    (P != [] ==> t.place[Last(P)].state == FaceUp)
  }

  /** Carrying the tail of tableau pile s from position k onto pile d is legal. */
  ghost predicate RunOk(t: Table, s: int, k: int, d: int) {
    Inv(t) && Shape(t, s, k, d) &&
    t.place[t.tableau[s][k]].state == FaceUp &&
    (t.tableau[d] != [] ==> Stacks(t.tableau[s][k], Last(t.tableau[d])))
  }

  lemma RunSource(t: Table, s: int, k: int, d: int)
    requires RunOk(t, s, k, d)
    ensures SourceOk(t, s)
  {
    PileCounts(t, multiset{}, Tableau, s);
    assert PileOk(Tableau, t.CardsOf(Tableau)[s], s, t.place);
  }

  /** The piles after j cards of the tail of pile s, from position k, went onto pile d. */
  ghost predicate MidPiles(t0: Table, t: Table, s: int, k: int, d: int, j: int)
    requires Shape(t0, s, k, d) && 0 <= j <= |t0.tableau[s]| - k
  {
    var P, D := t0.tableau[s], t0.tableau[d];
    t.foundation == t0.foundation && t.stock == t0.stock && t.waste == t0.waste &&
    t.allCards == t0.allCards && t.autocompletable == t0.autocompletable &&
    |t.tableau| == 7 &&
    (forall i | 0 <= i < 7 && i != s && i != d :: t.tableau[i] == t0.tableau[i]) &&
    t.tableau[s] == P[..k] + P[k + j..] && t.tableau[d] == D + P[k..k + j]
  }

  /** The cards' fields after j cards of the tail went onto pile d: those moved, the revealed one, no other. */
  ghost predicate MidPlaces(t0: Table, place: map<Card, Placement>, s: int, k: int, d: int, j: int)
    requires Shape(t0, s, k, d) && 0 <= j <= |t0.tableau[s]| - k
  {
    var P, D, m := t0.tableau[s], t0.tableau[d], |t0.tableau[s]| - k;
    Total(place) &&
    (forall a | k <= a < k + j :: place[P[a]] == Put(Tableau, true, d, |D| + 1 + a - k)) &&
    (forall x | x !in P[k..k + j] && !(j == m && k > 0 && x == P[k - 1]) :: place[x] == t0.place[x]) &&
    (j == m && k > 0 ==> place[P[k - 1]] == t0.place[P[k - 1]].(state := FaceUp, dragEnabled := true))
  }

  /** The table after j cards of the tail of pile s, from position k, went onto pile d. */
  ghost predicate MidMove(t0: Table, t: Table, s: int, k: int, d: int, j: int)
    requires Shape(t0, s, k, d) && 0 <= j <= |t0.tableau[s]| - k
  {
    MidPiles(t0, t, s, k, d, j) && MidPlaces(t0, t.place, s, k, d, j)
  }

  lemma MidStart(t0: Table, s: int, k: int, d: int)
    requires Shape(t0, s, k, d)
    ensures MidMove(t0, t0, s, k, d, 0)
  {
    var P := t0.tableau[s];
    assert P[..k] + P[k..] == P;
    assert t0.tableau[d] + P[k..k] == t0.tableau[d];
  }

  /** Removing P[k+j] from the middle of the source pile takes exactly that card out. */
  lemma MidPile(P: seq<Card>, k: int, j: int)
    requires forall x :: multiset(P)[x] <= 1
    requires 0 <= k && 0 <= j && k + j < |P|
    ensures RemoveFirst(P[..k] + P[k + j..], P[k + j]) == P[..k] + P[k + j + 1..]
  {
    var Q := P[..k] + P[k + j..];
    Unique(P, k + j);
    assert Q[k] == P[k + j] && Q[..k] == P[..k] && Q[k + 1..] == P[k + j + 1..];
    assert P[..k] <= P[..k + j];
    RemoveAt(Q, k);
  }

  /** In the middle of a tail move, the next card to go still has the fields it had at the start. */
  lemma MidNext(t0: Table, t: Table, s: int, k: int, d: int, j: int)
    requires Shape(t0, s, k, d) && SourceOk(t0, s) && 0 <= j < |t0.tableau[s]| - k
    requires MidMove(t0, t, s, k, d, j)
    ensures var x := t0.tableau[s][k + j];
      t.place[x] == t0.place[x] && t.place[x].container == Some(Tableau) && t.place[x].index == s &&
      t.tableau[s][k] == x && Removable(t, x)
  {
    var P := t0.tableau[s];
    var x := P[k + j];
    Unique(P, k + j);
    assert x !in P[k..k + j];
    if k > 0 {
      Unique(P, k - 1);
    }
    assert OnTableau(t0.place[P[k + j]], s, k + j);
  }

  /** `Tableau.removeCard` of the next card, in the middle of a tail move. */
  lemma MidRemoved(t0: Table, t: Table, s: int, k: int, d: int, j: int)
    requires Shape(t0, s, k, d) && SourceOk(t0, s) && 0 <= j < |t0.tableau[s]| - k
    requires MidMove(t0, t, s, k, d, j)
    ensures var P, x := t0.tableau[s], t0.tableau[s][k + j];
      Removable(t, x) &&
      Removed(t, x) == t.(tableau := t.tableau[s := P[..k] + P[k + j + 1..]],
                          place := Revealed(t.place[x := t.place[x].(container := None)], P[..k] + P[k + j + 1..]))
  {
    var P := t0.tableau[s];
    MidNext(t0, t, s, k, d, j);
    MidPile(P, k, j);
  }

  /** The reveal inside `Tableau.removeCard`, in the middle of a tail move. */
  lemma RevealedInMid(t0: Table, place: map<Card, Placement>, s: int, k: int, d: int, j: int)
    requires Shape(t0, s, k, d) && SourceOk(t0, s) && 0 <= j < |t0.tableau[s]| - k
    requires MidPlaces(t0, place, s, k, d, j)
    ensures var P, x := t0.tableau[s], t0.tableau[s][k + j];
      var q := Revealed(place[x := place[x].(container := None)], P[..k] + P[k + j + 1..]);
      Total(q) &&
      (forall a | k <= a < k + j :: q[P[a]] == Put(Tableau, true, d, |t0.tableau[d]| + 1 + a - k)) &&
      (forall y | y != x && y !in P[k..k + j] && !(j + 1 == |P| - k && k > 0 && y == P[k - 1]) :: q[y] == t0.place[y]) &&
      (j + 1 == |P| - k && k > 0 ==> q[P[k - 1]] == t0.place[P[k - 1]].(state := FaceUp, dragEnabled := true))
  {
    if j + 1 < |t0.tableau[s]| - k {
      RevealedBelowTop(t0, place, s, k, d, j);
    } else {
      RevealedAtTop(t0, place, s, k, d, j);
    }
  }

  /** Before the last card of the tail leaves, the source pile's top is already face up: the reveal changes nothing. */
  lemma RevealedBelowTop(t0: Table, place: map<Card, Placement>, s: int, k: int, d: int, j: int)
    requires Shape(t0, s, k, d) && SourceOk(t0, s) && 0 <= j && j + 1 < |t0.tableau[s]| - k
    requires MidPlaces(t0, place, s, k, d, j)
    ensures var P, x := t0.tableau[s], t0.tableau[s][k + j];
      var q := Revealed(place[x := place[x].(container := None)], P[..k] + P[k + j + 1..]);
      Total(q) &&
      (forall a | k <= a < k + j :: q[P[a]] == Put(Tableau, true, d, |t0.tableau[d]| + 1 + a - k)) &&
      (forall y | y != x && y !in P[k..k + j] :: q[y] == t0.place[y])
  {
    var P := t0.tableau[s];
    var x := P[k + j];
    TopStaysUp(t0, place, s, k, d, j);
    LiftedInMid(t0, place, s, k, d, j);
  }

  /** Below the top of the source pile, its top card keeps its fields, face up and draggable, so the reveal changes nothing. */
  lemma TopStaysUp(t0: Table, place: map<Card, Placement>, s: int, k: int, d: int, j: int)
    requires Shape(t0, s, k, d) && SourceOk(t0, s) && 0 <= j && j + 1 < |t0.tableau[s]| - k
    requires MidPlaces(t0, place, s, k, d, j)
    ensures var P, x := t0.tableau[s], t0.tableau[s][k + j];
      var p := place[x := place[x].(container := None)];
      Revealed(p, P[..k] + P[k + j + 1..]) == p
  {
    var P := t0.tableau[s];
    var x := P[k + j];
    var Q' := P[..k] + P[k + j + 1..];
    var p := place[x := place[x].(container := None)];
    var top := Last(P);
    TopApart(P, k, j);
    assert t0.place[top].state == FaceUp;
    assert OnTableau(t0.place[top], s, |P| - 1);
    assert p[top] == place[top] == t0.place[top];
    assert Last(Q') in p && p[Last(Q')].state == FaceUp && p[Last(Q')].dragEnabled;
    RevealedFaceUp(p, Q');
  }

  /** The top of a pile holding each card once lies above the tail cards 0 .. j and stays the top once card j is cut out. */
  lemma TopApart<T>(P: seq<T>, k: int, j: int)
    requires (forall x :: multiset(P)[x] <= 1) && 0 <= k && 0 <= j && k + j + 1 < |P|
    ensures Last(P) !in P[k..k + j] && Last(P) != P[k + j]
    ensures Last(P[..k] + P[k + j + 1..]) == Last(P)
  {
    var R := P[k + j + 1..];
    assert Last(R) == Last(P);
    Unique(P, |P| - 1);
  }

  /** Once the j-th card of the tail has its container cleared, the other cards keep their fields. */
  lemma LiftedInMid(t0: Table, place: map<Card, Placement>, s: int, k: int, d: int, j: int)
    requires Shape(t0, s, k, d) && SourceOk(t0, s) && 0 <= j < |t0.tableau[s]| - k
    requires MidPlaces(t0, place, s, k, d, j)
    ensures var P, x := t0.tableau[s], t0.tableau[s][k + j];
      var p := place[x := place[x].(container := None)];
      Total(p) &&
      (forall a | k <= a < k + j :: p[P[a]] == Put(Tableau, true, d, |t0.tableau[d]| + 1 + a - k)) &&
      (forall y | y != x && y !in P[k..k + j] :: p[y] == t0.place[y])
  {
    var P := t0.tableau[s];
    var x := P[k + j];
    var p := place[x := place[x].(container := None)];
    Unique(P, k + j);
    forall a | k <= a < k + j
      ensures p[P[a]] == Put(Tableau, true, d, |t0.tableau[d]| + 1 + a - k)
    {
      assert P[a] in P[..k + j];
    }
    forall y | y != x && y !in P[k..k + j]
      ensures p[y] == t0.place[y]
    {
      assert place[y] == t0.place[y];
    }
  }

  /** Revealing a pile whose top card is already face up and draggable changes nothing. */
  lemma RevealedFaceUp(place: map<Card, Placement>, pile: seq<Card>)
    requires pile != [] && Last(pile) in place
    requires place[Last(pile)].state == FaceUp && place[Last(pile)].dragEnabled
    ensures Revealed(place, pile) == place
  {
  }

  /** When the last card of the tail leaves, the card under the tail, if any, is turned face up. */
  lemma RevealedAtTop(t0: Table, place: map<Card, Placement>, s: int, k: int, d: int, j: int)
    requires Shape(t0, s, k, d) && SourceOk(t0, s) && 0 <= j && j + 1 == |t0.tableau[s]| - k
    requires MidPlaces(t0, place, s, k, d, j)
    ensures var P, x := t0.tableau[s], t0.tableau[s][k + j];
      var q := Revealed(place[x := place[x].(container := None)], P[..k] + P[k + j + 1..]);
      Total(q) &&
      (forall a | k <= a < k + j :: q[P[a]] == Put(Tableau, true, d, |t0.tableau[d]| + 1 + a - k)) &&
      (forall y | y != x && y !in P[k..k + j] && !(k > 0 && y == P[k - 1]) :: q[y] == t0.place[y]) &&
      (k > 0 ==> q[P[k - 1]] == t0.place[P[k - 1]].(state := FaceUp, dragEnabled := true))
  {
    var P := t0.tableau[s];
    var x := P[k + j];
    var Q' := P[..k] + P[k + j + 1..];
    Unique(P, k + j);
    assert x !in P[k..k + j];
    if k > 0 {
      assert Last(Q') == P[k - 1];
      Unique(P, k - 1);
      assert P[k - 1] !in P[k..k + j] && P[k - 1] != x;
    } else {
      assert Q' == [];
    }
  }


  /** The fields after `Tableau.addCard` of the next card onto pile d, in the middle of a tail move. */
  lemma MidAddedPlaces(t0: Table, s: int, k: int, d: int, j: int, q: map<Card, Placement>, z: int, r: map<Card, Placement>)
    requires Shape(t0, s, k, d) && (forall x :: multiset(t0.tableau[s])[x] <= 1) && 0 <= j < |t0.tableau[s]| - k
    requires var P, x := t0.tableau[s], t0.tableau[s][k + j];
      Total(q) &&
      (forall a | k <= a < k + j :: q[P[a]] == Put(Tableau, true, d, |t0.tableau[d]| + 1 + a - k)) &&
      (forall y | y != x && y !in P[k..k + j] && !(j + 1 == |P| - k && k > 0 && y == P[k - 1]) :: q[y] == t0.place[y]) &&
      (j + 1 == |P| - k && k > 0 ==> q[P[k - 1]] == t0.place[P[k - 1]].(state := FaceUp, dragEnabled := true))
    requires z == |t0.tableau[d]| + 1 + j && r == q[t0.tableau[s][k + j] := Put(Tableau, true, d, z)]
    ensures var P := t0.tableau[s];
      forall a | k <= a < k + (j + 1) :: r[P[a]] == Put(Tableau, true, d, |t0.tableau[d]| + 1 + a - k)
    ensures var P := t0.tableau[s];
      forall x | x !in P[k..k + (j + 1)] && !(j + 1 == |P| - k && k > 0 && x == P[k - 1]) :: r[x] == t0.place[x]
    ensures var P := t0.tableau[s];
      j + 1 == |P| - k && k > 0 ==> r[P[k - 1]] == t0.place[P[k - 1]].(state := FaceUp, dragEnabled := true)
    ensures MidPlaces(t0, r, s, k, d, j + 1)
  {
    var P, D := t0.tableau[s], t0.tableau[d];
    var x := P[k + j];
    Unique(P, k + j);
    assert P[k..k + (j + 1)] == P[k..k + j] + [x];
    forall y | y !in P[k..k + (j + 1)] && !(j + 1 == |P| - k && k > 0 && y == P[k - 1])
      ensures r[y] == t0.place[y]
    {
      assert y != x && y !in P[k..k + j];
    }
    forall b | k <= b < k + (j + 1)
      ensures r[P[b]] == Put(Tableau, true, d, |D| + 1 + b - k)
    {
      if b < k + j {
        assert P[b] in P[k..k + j];
      }
    }
    if j + 1 == |P| - k && k > 0 {
      Unique(P, k - 1);
      assert P[k - 1] != x;
    }
  }

  /** The piles after `Tableau.addCard` of the next card onto pile d, in the middle of a tail move. */
  lemma MidAddedPiles(t0: Table, t: Table, s: int, k: int, d: int, j: int, q: map<Card, Placement>)
    requires Shape(t0, s, k, d) && 0 <= j < |t0.tableau[s]| - k
    requires MidPiles(t0, t, s, k, d, j)
    ensures var P, x := t0.tableau[s], t0.tableau[s][k + j];
      MidPiles(t0, Added(t.(tableau := t.tableau[s := P[..k] + P[k + j + 1..]], place := q), Tableau, x, true, d), s, k, d, j + 1)
  {
    var P, D := t0.tableau[s], t0.tableau[d];
    var x := P[k + j];
    var u := t.(tableau := t.tableau[s := P[..k] + P[k + j + 1..]], place := q);
    var a := Added(u, Tableau, x, true, d);
    assert P[k..k + j + 1] == P[k..k + j] + [x];
    assert a.tableau[d] == D + P[k..k + j + 1];
    assert a.tableau[s] == P[..k] + P[k + (j + 1)..];
  }

  /** The piles after one more card of the tail went onto pile d. */
  lemma MidStepPiles(t0: Table, t: Table, s: int, k: int, d: int, j: int)
    requires Shape(t0, s, k, d) && SourceOk(t0, s) && 0 <= j < |t0.tableau[s]| - k
    requires MidMove(t0, t, s, k, d, j)
    ensures var x := t0.tableau[s][k + j];
      Removable(t, x) && |Removed(t, x).tableau| == 7 &&
      MidPiles(t0, Added(Removed(t, x), Tableau, x, true, d), s, k, d, j + 1)
  {
    var P := t0.tableau[s];
    var x := P[k + j];
    MidRemoved(t0, t, s, k, d, j);
    var q := Revealed(t.place[x := t.place[x].(container := None)], P[..k] + P[k + j + 1..]);
    MidAddedPiles(t0, t, s, k, d, j, q);
  }

  /** The fields after one more card of the tail left the source pile and went onto pile d. */
  lemma MidPlacesStep(t0: Table, place: map<Card, Placement>, s: int, k: int, d: int, j: int, Q: seq<Card>, z: int)
    requires Shape(t0, s, k, d) && SourceOk(t0, s) && 0 <= j < |t0.tableau[s]| - k
    requires MidPlaces(t0, place, s, k, d, j)
    requires Q == t0.tableau[s][..k] + t0.tableau[s][k + j + 1..] && z == |t0.tableau[d]| + 1 + j
    ensures var x := t0.tableau[s][k + j];
      MidPlaces(t0, Revealed(place[x := place[x].(container := None)], Q)[x := Put(Tableau, true, d, z)], s, k, d, j + 1)
  {
    var P, x := t0.tableau[s], t0.tableau[s][k + j];
    var q := Revealed(place[x := place[x].(container := None)], Q);
    RevealedInMid(t0, place, s, k, d, j);
    MidAddedPlaces(t0, s, k, d, j, q, z, q[x := Put(Tableau, true, d, z)]);
  }

  /** The fields after one more card of the tail went onto pile d. */
  lemma MidStepPlaces(t0: Table, t: Table, s: int, k: int, d: int, j: int)
    requires Shape(t0, s, k, d) && SourceOk(t0, s) && 0 <= j < |t0.tableau[s]| - k
    requires MidMove(t0, t, s, k, d, j)
    ensures var x := t0.tableau[s][k + j];
      Removable(t, x) && MidPlaces(t0, Added(Removed(t, x), Tableau, x, true, d).place, s, k, d, j + 1)
  {
    var P, x := t0.tableau[s], t0.tableau[s][k + j];
    MidRemoved(t0, t, s, k, d, j);
    assert |t.tableau[d]| + 1 == |t0.tableau[d] + P[k..k + j]| + 1 == |t0.tableau[d]| + 1 + j;
    var Q, z := P[..k] + P[k + j + 1..], |t0.tableau[d]| + 1 + j;
    StepPlace(t, x, s, d, Q, z);
    MidPlacesStep(t0, t.place, s, k, d, j, Q, z);
  }

  /** The fields after `removeCard` of a tableau card whose source pile becomes Q, then `addCard` onto pile d as its z-th card. */
  lemma StepPlace(t: Table, x: Card, s: int, d: int, Q: seq<Card>, z: int)
    requires Removable(t, x) && |t.tableau| == 7 && 0 <= s < 7 && 0 <= d < 7 && s != d
    requires Removed(t, x) == t.(tableau := t.tableau[s := Q], place := Revealed(t.place[x := t.place[x].(container := None)], Q))
    requires |t.tableau[d]| + 1 == z
    ensures Added(Removed(t, x), Tableau, x, true, d).place ==
      Revealed(t.place[x := t.place[x].(container := None)], Q)[x := Put(Tableau, true, d, z)]
  {
    AddedPlace(Removed(t, x), Tableau, x, true, d, z);
  }

  lemma AddedPlace(u: Table, k: Container, c: Card, faceup: bool, i: nat, z: int)
    requires i < |u.CardsOf(k)| && |u.CardsOf(k)[i]| + 1 == z
    ensures Added(u, k, c, faceup, i).place == u.place[c := Put(k, faceup, i, z)]
  {
  }

  /** One more card of the tail goes from the source pile onto pile d. */
  lemma MidStep(t0: Table, t: Table, s: int, k: int, d: int, j: int)
    requires Shape(t0, s, k, d) && SourceOk(t0, s) && 0 <= j < |t0.tableau[s]| - k
    requires MidMove(t0, t, s, k, d, j)
    ensures var x := t0.tableau[s][k + j];
      Removable(t, x) && |Removed(t, x).tableau| == 7 &&
      MidMove(t0, Added(Removed(t, x), Tableau, x, true, d), s, k, d, j + 1)
  {
    MidStepPiles(t0, t, s, k, d, j);
    MidStepPlaces(t0, t, s, k, d, j);
  }

  /** MoveAll of a nonempty group: the first card, then the rest. */
  lemma MoveAllCons(t: Table, g: seq<Card>, d: int, t': Table)
    requires g != [] && Removable(t, g[0]) && 0 <= d < |Removed(t, g[0]).tableau|
    requires t' == Added(Removed(t, g[0]), Tableau, g[0], true, d) && CanMoveAll(t', g[1..], d)
    ensures CanMoveAll(t, g, d) && MoveAll(t, g, d) == MoveAll(t', g[1..], d)
  {
  }

  /** The whole tail, from the j-th card on, goes onto pile d. */
  lemma {:induction false} MidRun(t0: Table, t: Table, s: int, k: int, d: int, j: int)
    requires Shape(t0, s, k, d) && SourceOk(t0, s) && 0 <= j < |t0.tableau[s]| - k
    requires MidMove(t0, t, s, k, d, j)
    ensures CanMoveAll(t, t0.tableau[s][k + j..], d)
    ensures MidMove(t0, MoveAll(t, t0.tableau[s][k + j..], d), s, k, d, |t0.tableau[s]| - k)
    decreases |t0.tableau[s]| - k - j, 1
  {
    var x := t0.tableau[s][k + j];
    MidStep(t0, t, s, k, d, j);
    MidRunFrom(t0, t, Added(Removed(t, x), Tableau, x, true, d), s, k, d, j);
  }

  /** The tail from the j-th card on, once its j-th card went onto pile d; the carry ends when it was the last. */
  lemma {:induction false} MidRunFrom(t0: Table, t: Table, t': Table, s: int, k: int, d: int, j: int)
    requires Shape(t0, s, k, d) && SourceOk(t0, s) && 0 <= j < |t0.tableau[s]| - k
    requires var x := t0.tableau[s][k + j];
      Removable(t, x) && 0 <= d < |Removed(t, x).tableau| && t' == Added(Removed(t, x), Tableau, x, true, d)
    requires MidMove(t0, t', s, k, d, j + 1)
    ensures CanMoveAll(t, t0.tableau[s][k + j..], d)
    ensures MidMove(t0, MoveAll(t, t0.tableau[s][k + j..], d), s, k, d, |t0.tableau[s]| - k)
    decreases |t0.tableau[s]| - k - j, 0
  {
    var P := t0.tableau[s];
    if j + 1 < |P| - k {
      MidRun(t0, t', s, k, d, j + 1);
    } else {
      assert P[k + (j + 1)..] == [];
    }
    MoveAllFrom(t, P, k + j, k + (j + 1), d, t');
  }

  /** MoveAll of the cards of P from position a on: the card at a, then those from b = a + 1 on. */
  lemma MoveAllFrom(t: Table, P: seq<Card>, a: int, b: int, d: int, t': Table)
    requires 0 <= a < |P| && b == a + 1
    requires Removable(t, P[a]) && 0 <= d < |Removed(t, P[a]).tableau|
    requires t' == Added(Removed(t, P[a]), Tableau, P[a], true, d) && CanMoveAll(t', P[b..], d)
    ensures CanMoveAll(t, P[a..], d) && MoveAll(t, P[a..], d) == MoveAll(t', P[b..], d)
  {
    var g := P[a..];
    assert g[0] == P[a] && g[1..] == P[b..];
    MoveAllCons(t, g, d, t');
  }

  /** What is left of the source pile is a well-formed pile, its new top turned face up. */
  lemma SourceCut(P: seq<Card>, s: int, p: map<Card, Placement>, k: int, q: map<Card, Placement>)
    requires Total(p) && Total(q) && TableauPileOk(P, s, p) && 0 <= k < |P|
    requires forall a | 0 <= a < k - 1 :: q[P[a]] == p[P[a]]
    requires k > 0 ==> q[P[k - 1]] == p[P[k - 1]].(state := FaceUp, dragEnabled := true)
    ensures TableauPileOk(P[..k], s, q)
  {
    var R := P[..k];
    forall a | 0 <= a < |R| ensures OnTableau(q[R[a]], s, a) {
      assert R[a] == P[a];
      assert OnTableau(p[P[a]], s, a);
    }
    forall a | 0 <= a < |R| - 1 && q[R[a]].state == FaceUp
      ensures q[R[a + 1]].state == FaceUp && Stacks(R[a + 1], R[a])
    {
      assert R[a] == P[a] && R[a + 1] == P[a + 1];
    }
  }

  /** The destination pile with the tail on top is a well-formed pile. */
  lemma DestJoined(D: seq<Card>, d: int, P: seq<Card>, s: int, k: int, p: map<Card, Placement>, q: map<Card, Placement>)
    requires Total(p) && Total(q) && TableauPileOk(D, d, p) && TableauPileOk(P, s, p)
    requires 0 <= k < |P| && p[P[k]].state == FaceUp && (D != [] ==> Stacks(P[k], Last(D)))
    requires forall a | 0 <= a < |D| :: q[D[a]] == p[D[a]]
    requires forall b | k <= b < |P| :: q[P[b]] == Put(Tableau, true, d, |D| + 1 + b - k)
    ensures TableauPileOk(D + P[k..], d, q)
  {
    var R := D + P[k..];
    forall a | 0 <= a < |R| ensures OnTableau(q[R[a]], d, a) {
      if a < |D| {
        assert R[a] == D[a];
        assert OnTableau(p[D[a]], d, a);
      } else {
        assert R[a] == P[k + a - |D|];
      }
    }
    assert Last(R) == P[|P| - 1];
    forall a | 0 <= a < |R| - 1 && q[R[a]].state == FaceUp
      ensures q[R[a + 1]].state == FaceUp && Stacks(R[a + 1], R[a])
    {
      if a < |D| - 1 {
        assert R[a] == D[a] && R[a + 1] == D[a + 1];
      } else if a == |D| - 1 {
        assert R[a] == Last(D) && R[a + 1] == P[k];
      } else {
        var b := k + a - |D|;
        assert R[a] == P[b] && R[a + 1] == P[b + 1];
        RunFaceUp(P, s, p, k, b);
      }
    }
  }

  /** Tableau pile s cut below position k, its new top turned face up: the table with the tail lifted. */
  ghost function CutSource(t0: Table, s: int, k: int): Table
    requires Total(t0.place) && 0 <= s < |t0.tableau| && 0 <= k < |t0.tableau[s]|
  {
    var P := t0.tableau[s];
    t0.(tableau := t0.tableau[s := P[..k]],
        place := if k > 0 then t0.place[P[k - 1] := t0.place[P[k - 1]].(state := FaceUp, dragEnabled := true)] else t0.place)
  }

  /** The rest of the source pile is well formed. */
  lemma CutPile(t0: Table, s: int, k: int)
    requires Total(t0.place) && 0 <= s < |t0.tableau| && 0 <= k < |t0.tableau[s]|
    requires SourceOk(t0, s) && TableauPileOk(t0.tableau[s], s, t0.place)
    ensures PileOk(Tableau, t0.tableau[s][..k], s, CutSource(t0, s, k).place)
  {
    var P := t0.tableau[s];
    var v := CutSource(t0, s, k);
    if k > 0 {
      Unique(P, k - 1);
    }
    forall a | 0 <= a < k - 1 ensures v.place[P[a]] == t0.place[P[a]] {
      assert P[a] in P[..k - 1];
    }
    SourceCut(P, s, t0.place, k, v.place);
  }

  /** Cutting the source pile changes that pile and the fields of its new top only. */
  lemma CutChanges(t0: Table, s: int, k: int)
    requires Total(t0.place) && 0 <= s < |t0.tableau| && 0 <= k < |t0.tableau[s]| && SourceOk(t0, s)
    ensures Total(CutSource(t0, s, k).place) && ChangesOnly(t0, multiset{}, CutSource(t0, s, k), Tableau, s)
  {
    if k > 0 {
      assert OnTableau(t0.place[t0.tableau[s][k - 1]], s, k - 1);
    }
  }

  lemma CutKeeps(t0: Table, s: int, k: int, d: int)
    requires RunOk(t0, s, k, d)
    ensures Holding(CutSource(t0, s, k), multiset(t0.tableau[s][k..]))
  {
    var P := t0.tableau[s];
    var v := CutSource(t0, s, k);
    RunSource(t0, s, k, d);
    assert PileOk(Tableau, t0.CardsOf(Tableau)[s], s, t0.place);
    CutPile(t0, s, k);
    CutChanges(t0, s, k);
    assert v.CardsOf(Tableau)[s] == P[..k];
    assert P == P[..k] + P[k..];
    Replaced(t0, multiset{}, v, Tableau, s, multiset(P[k..]));
  }

  /** Once the whole tail went onto pile d, only pile d and the tail's cards differ from the cut table. */
  lemma DoneChanges(t0: Table, t: Table, s: int, k: int, d: int)
    requires Shape(t0, s, k, d) && SourceOk(t0, s)
    requires MidMove(t0, t, s, k, d, |t0.tableau[s]| - k)
    ensures Total(CutSource(t0, s, k).place)
    ensures ChangesOnly(CutSource(t0, s, k), multiset(t0.tableau[s][k..]), t, Tableau, d)
  {
    DoneOthers(t0, t, s, k, d);
    DonePlaces(t0, t.place, s, k, d);
    TableauPileChanges(CutSource(t0, s, k), multiset(t0.tableau[s][k..]), t, d);
  }

  /** Once the whole tail went onto pile d, every other pile is as in the cut table. */
  lemma DoneOthers(t0: Table, t: Table, s: int, k: int, d: int)
    requires Shape(t0, s, k, d)
    requires MidPiles(t0, t, s, k, d, |t0.tableau[s]| - k)
    ensures var v := CutSource(t0, s, k);
      t.foundation == v.foundation && t.stock == v.stock && t.waste == v.waste && t.allCards == v.allCards &&
      |t.tableau| == |v.tableau| && forall i | 0 <= i < |v.tableau| && i != d :: t.tableau[i] == v.tableau[i]
  {
    var P, m := t0.tableau[s], |t0.tableau[s]| - k;
    assert t.tableau[s] == P[..k] by {
      assert P[k + m..] == [];
    }
  }

  /** Once the whole tail went onto pile d, only the tail's cards have other fields than in the cut table. */
  lemma DonePlaces(t0: Table, place: map<Card, Placement>, s: int, k: int, d: int)
    requires Shape(t0, s, k, d)
    requires MidPlaces(t0, place, s, k, d, |t0.tableau[s]| - k)
    ensures forall x :: place[x] != CutSource(t0, s, k).place[x] ==> x in multiset(t0.tableau[s][k..])
  {
    var P, m := t0.tableau[s], |t0.tableau[s]| - k;
    var v := CutSource(t0, s, k);
    assert P[k..k + m] == P[k..];
    forall x | place[x] != v.place[x] ensures x in multiset(P[k..]) {
      assert x in P[k..k + m];
    }
  }

  /** Once the whole tail went onto pile d, pile d is well formed. */
  lemma DonePile(t0: Table, t: Table, s: int, k: int, d: int)
    requires Shape(t0, s, k, d) && SourceOk(t0, s)
    requires TableauPileOk(t0.tableau[s], s, t0.place) && TableauPileOk(t0.tableau[d], d, t0.place)
    requires t0.place[t0.tableau[s][k]].state == FaceUp
    requires t0.tableau[d] != [] ==> Stacks(t0.tableau[s][k], Last(t0.tableau[d]))
    requires MidPlaces(t0, t.place, s, k, d, |t0.tableau[s]| - k)
    requires 0 <= d < |t.tableau| && t.tableau[d] == t0.tableau[d] + t0.tableau[s][k..]
    ensures PileOk(Tableau, t.tableau[d], d, t.place)
  {
    var P, D := t0.tableau[s], t0.tableau[d];
    DestFrame(t0, t.place, s, k, d);
    DestJoined(D, d, P, s, k, t0.place, t.place);
  }

  /** The cards that lay on pile d keep their fields through the move. */
  lemma DestFrame(t0: Table, place: map<Card, Placement>, s: int, k: int, d: int)
    requires Shape(t0, s, k, d) && SourceOk(t0, s) && TableauPileOk(t0.tableau[d], d, t0.place)
    requires MidPlaces(t0, place, s, k, d, |t0.tableau[s]| - k)
    ensures forall a | 0 <= a < |t0.tableau[d]| :: place[t0.tableau[d][a]] == t0.place[t0.tableau[d][a]]
  {
    var P, D, m := t0.tableau[s], t0.tableau[d], |t0.tableau[s]| - k;
    forall a | 0 <= a < |D| ensures place[D[a]] == t0.place[D[a]] {
      assert OnTableau(t0.place[D[a]], d, a);
      forall b | 0 <= b < |P| ensures P[b] != D[a] {
        assert OnTableau(t0.place[P[b]], s, b);
      }
      assert D[a] !in P[k..k + m];
    }
  }

  /** Once the whole tail went onto pile d, pile d holds what it held and the tail. */
  lemma DoneCount(t0: Table, t: Table, s: int, k: int, d: int)
    requires Shape(t0, s, k, d) && MidPiles(t0, t, s, k, d, |t0.tableau[s]| - k)
    ensures 0 <= d < |CutSource(t0, s, k).tableau|
    ensures multiset(t.CardsOf(Tableau)[d]) + multiset{} ==
      multiset(CutSource(t0, s, k).CardsOf(Tableau)[d]) + multiset(t0.tableau[s][k..])
  {
    var P, m := t0.tableau[s], |t0.tableau[s]| - k;
    assert P[k..k + m] == P[k..];
  }

  /** Once the whole tail went onto pile d, the table is consistent again. */
  lemma DoneKeeps(t0: Table, t: Table, s: int, k: int, d: int)
    requires RunOk(t0, s, k, d)
    requires MidMove(t0, t, s, k, d, |t0.tableau[s]| - k)
    ensures Inv(t)
  {
    var P, m := t0.tableau[s], |t0.tableau[s]| - k;
    var v := CutSource(t0, s, k);
    RunSource(t0, s, k, d);
    CutKeeps(t0, s, k, d);
    DoneChanges(t0, t, s, k, d);
    assert PileOk(Tableau, t0.CardsOf(Tableau)[s], s, t0.place);
    assert PileOk(Tableau, t0.CardsOf(Tableau)[d], d, t0.place);
    DoneShape(t0, t, s, k, d);
    DonePile(t0, t, s, k, d);
    DoneCount(t0, t, s, k, d);
    Replaced(v, multiset(P[k..]), t, Tableau, d, multiset{});
  }

  // ---------------------------------------------------------------------
  // Moving a card with what lies on it
  // ---------------------------------------------------------------------

  /**
   * Carrying the tail of tableau pile s from position k onto pile d keeps the
   * table consistent; the tail ends on top of pile d, the rest of pile s stays,
   * no other pile changes.
   */
  lemma TailMoved(t: Table, s: int, k: int, d: int)
    requires RunOk(t, s, k, d)
    ensures CanMoveAll(t, t.tableau[s][k..], d)
    ensures var P, u := t.tableau[s], MoveAll(t, t.tableau[s][k..], d);
      Inv(u) && |u.tableau| == 7 && u.tableau[s] == P[..k] && u.tableau[d] == t.tableau[d] + P[k..] &&
      (forall i | 0 <= i < 7 && i != s && i != d :: u.tableau[i] == t.tableau[i]) &&
      u.foundation == t.foundation && u.stock == t.stock && u.waste == t.waste &&
      u.allCards == t.allCards && u.autocompletable == t.autocompletable
  {
    var P := t.tableau[s];
    RunSource(t, s, k, d);
    MidStart(t, s, k, d);
    assert P[k + 0..] == P[k..];
    MidRun(t, t, s, k, d, 0);
    var u := MoveAll(t, P[k..], d);
    DoneKeeps(t, u, s, k, d);
    DoneShape(t, u, s, k, d);
  }

  /** The piles once the whole tail went onto pile d. */
  lemma DoneShape(t0: Table, t: Table, s: int, k: int, d: int)
    requires Shape(t0, s, k, d) && MidPiles(t0, t, s, k, d, |t0.tableau[s]| - k)
    ensures var P := t0.tableau[s];
      |t.tableau| == 7 && t.tableau[s] == P[..k] && t.tableau[d] == t0.tableau[d] + P[k..] &&
      (forall i | 0 <= i < 7 && i != s && i != d :: t.tableau[i] == t0.tableau[i]) &&
      t.foundation == t0.foundation && t.stock == t0.stock && t.waste == t0.waste &&
      t.allCards == t0.allCards && t.autocompletable == t0.autocompletable
  {
    var P, m := t0.tableau[s], |t0.tableau[s]| - k;
    assert P[k..k + m] == P[k..];
    assert P[..k] + P[k + m..] == P[..k];
  }

  /** What the `cardgroup` move of `card` onto tableau pile d needs to keep the table consistent. */
  ghost predicate CanCarry(t: Table, card: Card, d: int) {
    Inv(t) && 0 <= d < 7 && t.place[card].container.Some? &&
    var k, i := t.place[card].container.value, t.place[card].index;
    0 <= i < |t.CardsOf(k)| &&
    (k == Tableau ==> i != d && t.place[card].state == FaceUp) &&
    (k == Foundation ==> t.foundation[i] != [] && Last(t.foundation[i]) == card) &&
    (t.tableau[d] != [] ==> Stacks(card, Last(t.tableau[d])))
  }

  /**
   * u is t with `card`'s group lifted off the top of its tableau pile, or the
   * card alone taken from another container by `list.remove`, and put on top
   * of tableau pile d; no other pile changes.
   */
  ghost predicate GroupMoved(t: Table, u: Table, card: Card, d: int)
    requires Total(t.place)
  {
    t.place[card].container.Some? &&
    var k, i := t.place[card].container.value, t.place[card].index;
    0 <= i < |t.CardsOf(k)| && 0 <= d < |t.tableau| && (k, i) != (Tableau, d) &&
    KeepsOthers(t, u, k, i, Tableau, d) && i < |u.CardsOf(k)| && d < |u.tableau| &&
    u.tableau[d] == t.tableau[d] + Group(t, card) &&
    (k == Tableau ==> u.tableau[i] + Group(t, card) == t.tableau[i]) &&
    (k != Tableau ==> u.CardsOf(k)[i] == RemoveFirst(t.CardsOf(k)[i], card))
  }

  /** A tableau card's group is its pile from the card up. */
  lemma GroupOfTableau(t: Table, card: Card) returns (k: int)
    requires Inv(t) && t.place[card].container == Some(Tableau)
    ensures var s := t.place[card].index;
      0 <= s < 7 && 0 <= k < |t.tableau[s]| && t.tableau[s][k] == card && Group(t, card) == t.tableau[s][k..]
  {
    Located(t, multiset{}, card);
    var s := t.place[card].index;
    var P := t.tableau[s];
    k := IndexOf(P, card);
    PileCounts(t, multiset{}, Tableau, s);
    assert multiset(P)[card] == 1;
    TailIsSuffix(P, card);
  }

  /**
   * The `cardgroup` move keeps the table consistent: the group ends on top of
   * tableau pile d, and the stock and the waste keep their cards unless the
   * card came from them.
   */
  lemma Carried(t: Table, card: Card, d: int)
    requires CanCarry(t, card, d)
    ensures CanMoveAll(t, Group(t, card), d)
    ensures var u := MoveAll(t, Group(t, card), d);
      Inv(u) && GroupMoved(t, u, card, d)
  {
    if t.place[card].container == Some(Tableau) {
      CarriedTail(t, card, d);
    } else {
      CarriedAlone(t, card, d);
    }
  }

  lemma CarriedTail(t: Table, card: Card, d: int)
    requires CanCarry(t, card, d) && t.place[card].container == Some(Tableau)
    ensures CanMoveAll(t, Group(t, card), d)
    ensures var u := MoveAll(t, Group(t, card), d);
      Inv(u) && GroupMoved(t, u, card, d)
  {
    var s := t.place[card].index;
    var k := GroupOfTableau(t, card);
    TailMoved(t, s, k, d);
    TailGroupMoved(t, MoveAll(t, t.tableau[s][k..], d), card, k, d);
  }

  /** The piles `TailMoved` leaves, for the group of `card` from position k of its pile, make a move of that group. */
  lemma TailGroupMoved(t: Table, u: Table, card: Card, k: int, d: int)
    requires Total(t.place) && t.place[card].container == Some(Tableau)
    requires var s := t.place[card].index;
      |t.tableau| == 7 && 0 <= s < 7 && 0 <= d < 7 && s != d && 0 <= k < |t.tableau[s]| &&
      Group(t, card) == t.tableau[s][k..]
    requires var s := t.place[card].index; var P := t.tableau[s];
      |u.tableau| == 7 && u.tableau[s] == P[..k] && u.tableau[d] == t.tableau[d] + P[k..] &&
      (forall i | 0 <= i < 7 && i != s && i != d :: u.tableau[i] == t.tableau[i]) &&
      u.foundation == t.foundation && u.stock == t.stock && u.waste == t.waste &&
      u.allCards == t.allCards && u.autocompletable == t.autocompletable
    ensures GroupMoved(t, u, card, d)
  {
    var s := t.place[card].index;
    var P := t.tableau[s];
    assert P[..k] + P[k..] == P;
    TailKeepsOthers(t, u, s, d);
  }

  /** A move between tableau piles s and d that leaves the other tableau piles and containers alone. */
  lemma TailKeepsOthers(t: Table, u: Table, s: int, d: int)
    requires |t.tableau| == 7 && |u.tableau| == 7
    requires forall i | 0 <= i < 7 && i != s && i != d :: u.tableau[i] == t.tableau[i]
    requires u.foundation == t.foundation && u.stock == t.stock && u.waste == t.waste
    requires u.allCards == t.allCards && u.autocompletable == t.autocompletable
    ensures KeepsOthers(t, u, Tableau, s, Tableau, d)
  {
    forall c ensures |u.CardsOf(c)| == |t.CardsOf(c)| {
    }
    forall c, x | 0 <= x < |t.CardsOf(c)| && (c, x) != (Tableau, s) && (c, x) != (Tableau, d)
      ensures u.CardsOf(c)[x] == t.CardsOf(c)[x]
    {
    }
  }

  lemma CarriedAlone(t: Table, card: Card, d: int)
    requires CanCarry(t, card, d) && t.place[card].container != Some(Tableau)
    ensures CanMoveAll(t, Group(t, card), d)
    ensures var u := MoveAll(t, Group(t, card), d);
      Inv(u) && GroupMoved(t, u, card, d)
  {
    assert Group(t, card) == [card];
    AloneStep(t, card, d);
    var u := Added(Removed(t, card), Tableau, card, true, d);
    assert [card][1..] == [];
    MoveAllCons(t, [card], d, u);
    Located(t, multiset{}, card);
    OneCardMoved(t, card, Tableau, d, true);
  }

  /** A card that lies outside the tableau, taken from its container onto tableau pile d. */
  lemma AloneStep(t: Table, card: Card, d: int)
    requires CanCarry(t, card, d) && t.place[card].container != Some(Tableau)
    ensures Removable(t, card) && Removed(t, card).tableau == t.tableau
    ensures var u := Added(Removed(t, card), Tableau, card, true, d);
      Inv(u) && u.tableau[d] == t.tableau[d] + [card] &&
      u.allCards == t.allCards && u.autocompletable == t.autocompletable
  {
    AloneLifted(t, card);
    AloneDropped(Removed(t, card), card, d);
  }

  lemma AloneDropped(r: Table, card: Card, d: int)
    requires Holding(r, multiset{card}) && 0 <= d < 7
    requires r.tableau[d] != [] ==> Stacks(card, Last(r.tableau[d]))
    ensures var u := Added(r, Tableau, card, true, d);
      Inv(u) && u.tableau[d] == r.tableau[d] + [card] &&
      u.allCards == r.allCards && u.autocompletable == r.autocompletable
  {
    AddedTableau(r, multiset{card}, card, d);
    assert multiset{card} - multiset{card} == multiset{};
  }

  lemma AloneLifted(t: Table, card: Card)
    requires Inv(t) && t.place[card].container != Some(Tableau)
    requires t.place[card].container == Some(Foundation) ==>
      0 <= t.place[card].index < 4 && t.foundation[t.place[card].index] != [] && Last(t.foundation[t.place[card].index]) == card
    ensures Removable(t, card) && Holding(Removed(t, card), multiset{card})
    ensures Removed(t, card).tableau == t.tableau
    ensures Removed(t, card).allCards == t.allCards && Removed(t, card).autocompletable == t.autocompletable
  {
    AloneHolding(t, card);
    AlonePiles(t, card);
  }

  lemma AloneHolding(t: Table, card: Card)
    requires Inv(t) && t.place[card].container != Some(Tableau)
    requires t.place[card].container == Some(Foundation) ==>
      0 <= t.place[card].index < 4 && t.foundation[t.place[card].index] != [] && Last(t.foundation[t.place[card].index]) == card
    ensures Removable(t, card) && Holding(Removed(t, card), multiset{card})
  {
    Located(t, multiset{}, card);
    assert Liftable(t, card);
    RemovedLifted(t, multiset{}, card);
    assert multiset{} + multiset{card} == multiset{card};
  }

  lemma AlonePiles(t: Table, card: Card)
    requires Inv(t) && t.place[card].container != Some(Tableau)
    requires t.place[card].container == Some(Foundation) ==>
      0 <= t.place[card].index < 4 && t.foundation[t.place[card].index] != [] && Last(t.foundation[t.place[card].index]) == card
    ensures Removable(t, card) && Removed(t, card).tableau == t.tableau
    ensures Removed(t, card).allCards == t.allCards && Removed(t, card).autocompletable == t.autocompletable
  {
    Located(t, multiset{}, card);
    assert Liftable(t, card);
    RemovedPiles(t, card);
    assert Removed(t, card).CardsOf(Tableau) == t.CardsOf(Tableau);
  }

  /** Ranks fall by one along a face-up run. */
  lemma {:induction false} RunValues(pile: seq<Card>, i: int, place: map<Card, Placement>, k: int, a: int)
    requires Total(place) && TableauPileOk(pile, i, place)
    requires 0 <= k <= a < |pile| && place[pile[k]].state == FaceUp
    ensures pile[a].value == pile[k].value - (a - k)
    decreases a - k
  {
    if a > k {
      RunValues(pile, i, place, k, a - 1);
      RunFaceUp(pile, i, place, k, a - 1);
    }
  }

  /** A face-up tableau card cannot go onto its own pile. */
  lemma NotOwnPile(t: Table, card: Card, d: int)
    requires Inv(t) && (t.place[card].container == Some(Tableau) ==> t.place[card].state == FaceUp)
    requires 0 <= d < 7 && (t.tableau[d] != [] ==> Stacks(card, Last(t.tableau[d])))
    ensures t.place[card].container == Some(Tableau) ==> t.place[card].index != d
  {
    if t.place[card].container == Some(Tableau) {
      Located(t, multiset{}, card);
      var s := t.place[card].index;
      var P := t.tableau[s];
      var k := IndexOf(P, card);
      assert PileOk(Tableau, t.CardsOf(Tableau)[s], s, t.place);
      RunValues(P, s, t.place, k, |P| - 1);
    }
  }
}
