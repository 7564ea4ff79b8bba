/**
 * Facts about the container operations: which of them keep the table
 * consistent, and what each one does to the piles.
 */
module ContainerFacts {
  import opened PlayingCards
  import opened Piles
  import opened Containers

  // ---------------------------------------------------------------------
  // Single piles
  // ---------------------------------------------------------------------

  /** A card in a well-formed pile is recorded as lying in that pile. */
  lemma PileCardPlaced(k: Container, pile: seq<Card>, i: int, place: map<Card, Placement>, j: int)
    requires Total(place) && PileOk(k, pile, i, place) && 0 <= j < |pile|
    ensures place[pile[j]].container == Some(k) && place[pile[j]].index == i
  {
    match k
    case Foundation =>
      assert place[pile[j]] == Put(Foundation, true, i, j + 1);
    case Tableau =>
      assert OnTableau(place[pile[j]], i, j);
    case Stock =>
      assert StockPlaced(place[pile[j]]);
    case Waste =>
  }

  /** A pile depends only on the fields of its own cards. */
  lemma PileFrame(k: Container, pile: seq<Card>, i: int, p: map<Card, Placement>, q: map<Card, Placement>)
    requires Total(p) && Total(q) && PileOk(k, pile, i, p)
    requires forall j | 0 <= j < |pile| :: q[pile[j]] == p[pile[j]]
    ensures PileOk(k, pile, i, q)
  {
    match k
    case Foundation =>
    case Tableau =>
      if pile != [] {
        assert q[Last(pile)] == p[Last(pile)];
      }
    case Stock =>
    case Waste =>
  }

  // ---------------------------------------------------------------------
  // Counting
  // ---------------------------------------------------------------------

  lemma PileInContents(t: Table, k: Container, i: int)
    requires 0 <= i < |t.CardsOf(k)|
    ensures multiset(t.CardsOf(k)[i]) <= Contents(t)
  {
    PileInFlatten(t.CardsOf(k), i);
  }

  /** A card that is not lifted lies in the pile its fields name. */
  lemma Located(t: Table, h: multiset<Card>, c: Card)
    requires Holding(t, h) && c !in h
    ensures t.place[c].container.Some?
    ensures var k, i := t.place[c].container.value, t.place[c].index;
      0 <= i < |t.CardsOf(k)| && c in t.CardsOf(k)[i]
  {
    FullDeckOnce(c);
    assert c in Contents(t);
    var k: Container;
    if c in multiset(Flatten(t.foundation)) {
      k := Foundation;
    } else if c in multiset(Flatten(t.tableau)) {
      k := Tableau;
    } else if c in multiset(Flatten(t.stock)) {
      k := Stock;
    } else {
      k := Waste;
    }
    assert c in multiset(Flatten(t.CardsOf(k)));
    var i := InFlatten(t.CardsOf(k), c);
    var pile := t.CardsOf(k)[i];
    var j :| 0 <= j < |pile| && pile[j] == c;
    assert PileOk(k, pile, i, t.place);
    PileCardPlaced(k, pile, i, t.place, j);
  }

  /** A lifted card lies in no pile. */
  lemma HandNotPiled(t: Table, h: multiset<Card>, c: Card, k: Container, i: int)
    requires Holding(t, h) && c in h && 0 <= i < |t.CardsOf(k)|
    ensures c !in t.CardsOf(k)[i]
  {
    FullDeckOnce(c);
    PileInContents(t, k, i);
    assert (Contents(t) + h)[c] == 1;
  }

  /** No card lies twice in a pile. */
  lemma OnceInPile(t: Table, h: multiset<Card>, k: Container, i: int, j: int)
    requires Holding(t, h) && 0 <= i < |t.CardsOf(k)| && 0 <= j < |t.CardsOf(k)[i]|
    ensures forall j' | 0 <= j' < |t.CardsOf(k)[i]| && j' != j :: t.CardsOf(k)[i][j'] != t.CardsOf(k)[i][j]
  {
    var pile := t.CardsOf(k)[i];
    FullDeckOnce(pile[j]);
    PileInContents(t, k, i);
    assert (Contents(t) + h)[pile[j]] == 1;
    forall j' | 0 <= j' < |pile| && j' != j
      ensures pile[j'] != pile[j]
    {
      if pile[j'] == pile[j] {
        if j' < j {
          TwiceCounted(pile, j', j);
        } else {
          TwiceCounted(pile, j, j');
        }
      }
    }
  }

  /** The top card of a pile occurs nowhere below it. */
  lemma TopOnce(t: Table, h: multiset<Card>, k: Container, i: int)
    requires Holding(t, h) && 0 <= i < |t.CardsOf(k)| && t.CardsOf(k)[i] != []
    ensures var pile := t.CardsOf(k)[i]; RemoveFirst(pile, Last(pile)) == pile[..|pile| - 1]
  {
    var pile := t.CardsOf(k)[i];
    OnceInPile(t, h, k, i, |pile| - 1);
    assert Last(pile) !in pile[..|pile| - 1];
    RemoveLast(pile);
  }

  lemma MultisetShift<T>(x: multiset<T>, x': multiset<T>, rest: multiset<T>, p: multiset<T>, q: multiset<T>)
    requires x' + p == x + q
    ensures (x' + rest) + p == (x + rest) + q
  {
    forall e
      ensures ((x' + rest) + p)[e] == ((x + rest) + q)[e]
    {
      assert (x' + p)[e] == (x + q)[e];
    }
  }

  /** The cards of the containers other than k. */
  ghost function OtherContents(t: Table, k: Container): multiset<Card> {
    var F, T := multiset(Flatten(t.CardsOf(Foundation))), multiset(Flatten(t.CardsOf(Tableau)));
    var S, W := multiset(Flatten(t.CardsOf(Stock))), multiset(Flatten(t.CardsOf(Waste)));
    match k
    case Foundation => T + S + W
    case Tableau => F + S + W
    case Stock => F + T + W
    case Waste => F + T + S
  }

  /** The contents are those of container k and those of the others. */
  lemma ContentsSplit(t: Table, k: Container)
    ensures Contents(t) == multiset(Flatten(t.CardsOf(k))) + OtherContents(t, k)
  {
  }

  /** Replacing one pile changes the contents by exactly that pile. */
  lemma ContentsWithPile(t: Table, k: Container, i: int, pile: seq<Card>)
    requires 0 <= i < |t.CardsOf(k)|
    ensures Contents(t.WithCards(k, t.CardsOf(k)[i := pile])) + multiset(t.CardsOf(k)[i]) == Contents(t) + multiset(pile)
  {
    var v := t.WithCards(k, t.CardsOf(k)[i := pile]);
    FlattenUpdate(t.CardsOf(k), i, pile);
    ContentsSplit(t, k);
    ContentsSplit(v, k);
    assert OtherContents(v, k) == OtherContents(t, k);
    var X, X' := multiset(Flatten(t.CardsOf(k))), multiset(Flatten(v.CardsOf(k)));
    MultisetShift(X, X', OtherContents(t, k), multiset(t.CardsOf(k)[i]), multiset(pile));
  }

  /** The contents depend on the piles alone. */
  lemma SameContents(a: Table, b: Table)
    requires forall k :: a.CardsOf(k) == b.CardsOf(k)
    ensures Contents(a) == Contents(b)
  {
    assert a.CardsOf(Foundation) == b.CardsOf(Foundation) && a.CardsOf(Tableau) == b.CardsOf(Tableau);
    assert a.CardsOf(Stock) == b.CardsOf(Stock) && a.CardsOf(Waste) == b.CardsOf(Waste);
  }

  // ---------------------------------------------------------------------
  // Changing one pile
  // ---------------------------------------------------------------------

  /** `u` differs from `t` in pile i of container k only, and in the fields of that pile's or lifted cards only. */
  ghost predicate ChangesOnly(t: Table, h: multiset<Card>, u: Table, k: Container, i: int)
    requires Total(t.place) && Total(u.place)
  {
    (forall k' :: |u.CardsOf(k')| == |t.CardsOf(k')|) &&
    (forall k', i' | 0 <= i' < |t.CardsOf(k')| && (k', i') != (k, i) :: u.CardsOf(k')[i'] == t.CardsOf(k')[i']) &&
    (forall x :: u.place[x] != t.place[x] ==> x in h || (t.place[x].container == Some(k) && t.place[x].index == i)) &&
    u.allCards == t.allCards
  }

  lemma Rebuilt(t: Table, h: multiset<Card>, u: Table, k: Container, i: int)
    requires Holding(t, h) && Total(u.place) && 0 <= i < |t.CardsOf(k)|
    requires ChangesOnly(t, h, u, k, i)
    requires PileOk(k, u.CardsOf(k)[i], i, u.place)
    ensures PilesOk(u)
  {
    assert |u.CardsOf(Foundation)| == 4 && |u.CardsOf(Tableau)| == 7;
    assert |u.CardsOf(Stock)| == 1 && |u.CardsOf(Waste)| == 1;
    forall k': Container, i' | 0 <= i' < |u.CardsOf(k')|
      ensures PileOk(k', u.CardsOf(k')[i'], i', u.place)
    {
      if (k', i') != (k, i) {
        var pile := t.CardsOf(k')[i'];
        assert PileOk(k', pile, i', t.place);
        forall j | 0 <= j < |pile|
          ensures u.place[pile[j]] == t.place[pile[j]]
        {
          PileCardPlaced(k', pile, i', t.place, j);
          if pile[j] in h {
            HandNotPiled(t, h, pile[j], k', i');
          }
        }
        PileFrame(k', pile, i', t.place, u.place);
      }
    }
  }

  lemma LiftCount<T>(a: multiset<T>, b: multiset<T>, p: multiset<T>, h: multiset<T>, c: T)
    requires c in p && a + p == b + (p - multiset{c})
    ensures a + (h + multiset{c}) == b + h
  {
    forall e
      ensures (a + (h + multiset{c}))[e] == (b + h)[e]
    {
      assert (a + p)[e] == (b + (p - multiset{c}))[e];
    }
  }

  lemma DropCount<T>(a: multiset<T>, b: multiset<T>, p: multiset<T>, h: multiset<T>, c: T)
    requires c in h && a + p == b + (p + multiset{c})
    ensures a + (h - multiset{c}) == b + h
  {
    forall e
      ensures (a + (h - multiset{c}))[e] == (b + h)[e]
    {
      assert (a + p)[e] == (b + (p + multiset{c}))[e];
    }
  }

  /** Outside the changed pile, `u` has the piles of `t`. */
  lemma Reassembled(t: Table, h: multiset<Card>, u: Table, k: Container, i: int)
    requires Total(t.place) && Total(u.place) && 0 <= i < |t.CardsOf(k)|
    requires ChangesOnly(t, h, u, k, i)
    ensures forall k' :: u.CardsOf(k') == t.WithCards(k, t.CardsOf(k)[i := u.CardsOf(k)[i]]).CardsOf(k')
  {
    assert u.CardsOf(k) == t.CardsOf(k)[i := u.CardsOf(k)[i]];
  }

  lemma ReplaceCount<T>(a: multiset<T>, b: multiset<T>, was: multiset<T>, now: multiset<T>, h: multiset<T>, h': multiset<T>)
    requires a + was == b + now && now + h' == was + h
    ensures a + h' == b + h
  {
    forall e
      ensures (a + h')[e] == (b + h)[e]
    {
      assert (a + was)[e] == (b + now)[e] && (now + h')[e] == (was + h)[e];
    }
  }

  /**
   * Replacing pile i of container k by a well-formed pile, moving cards
   * between that pile and the lifted cards, keeps the table consistent.
   */
  lemma Replaced(t: Table, h: multiset<Card>, u: Table, k: Container, i: int, h': multiset<Card>)
    requires Holding(t, h) && Total(u.place) && 0 <= i < |t.CardsOf(k)|
    requires ChangesOnly(t, h, u, k, i)
    requires PileOk(k, u.CardsOf(k)[i], i, u.place)
    requires multiset(u.CardsOf(k)[i]) + h' == multiset(t.CardsOf(k)[i]) + h
    ensures Holding(u, h')
  {
    Rebuilt(t, h, u, k, i);
    var v := t.WithCards(k, t.CardsOf(k)[i := u.CardsOf(k)[i]]);
    Reassembled(t, h, u, k, i);
    SameContents(u, v);
    ContentsWithPile(t, k, i, u.CardsOf(k)[i]);
    ReplaceCount(Contents(u), Contents(t), multiset(t.CardsOf(k)[i]), multiset(u.CardsOf(k)[i]), h, h');
  }

  /** Taking card c out of its pile leaves c lifted. */
  lemma Lifted(t: Table, h: multiset<Card>, u: Table, k: Container, i: int, c: Card)
    requires Holding(t, h) && Total(u.place) && 0 <= i < |t.CardsOf(k)| && c in t.CardsOf(k)[i]
    requires ChangesOnly(t, h, u, k, i)
    requires u.CardsOf(k)[i] == RemoveFirst(t.CardsOf(k)[i], c)
    requires PileOk(k, u.CardsOf(k)[i], i, u.place)
    ensures Holding(u, h + multiset{c})
  {
    LiftOne(t.CardsOf(k)[i], c);
    Replaced(t, h, u, k, i, h + multiset{c});
  }

  /** Removing a card of a pile and holding it keeps the same cards. */
  lemma LiftOne(pile: seq<Card>, c: Card)
    requires c in pile
    ensures multiset(RemoveFirst(pile, c)) + multiset{c} == multiset(pile)
  {
    var p := multiset(pile);
    assert p == (p - multiset{c}) + multiset{c};
  }

  /** Putting the lifted card c on a pile. */
  lemma Dropped(t: Table, h: multiset<Card>, u: Table, k: Container, i: int, c: Card)
    requires Holding(t, h) && Total(u.place) && 0 <= i < |t.CardsOf(k)| && c in h
    requires ChangesOnly(t, h, u, k, i)
    requires u.CardsOf(k)[i] == t.CardsOf(k)[i] + [c]
    requires PileOk(k, u.CardsOf(k)[i], i, u.place)
    ensures Holding(u, h - multiset{c})
  {
    DropOne(h, c);
    Replaced(t, h, u, k, i, h - multiset{c});
  }

  /** Dropping a held card and holding the rest keeps the same cards. */
  lemma DropOne(h: multiset<Card>, c: Card)
    requires c in h
    ensures (h - multiset{c}) + multiset{c} == h
  {
    assert h == (h - multiset{c}) + multiset{c};
  }

  // ---------------------------------------------------------------------
  // addCard
  // ---------------------------------------------------------------------

  /** `addCard` records the card at the top of pile i and changes nothing else. */
  lemma AddedPlaces(t: Table, k: Container, c: Card, faceup: bool, i: nat)
    requires i < |t.CardsOf(k)|
    ensures var u := Added(t, k, c, faceup, i);
      u.CardsOf(k) == t.CardsOf(k)[i := t.CardsOf(k)[i] + [c]] &&
      (forall k' :: k' != k ==> u.CardsOf(k') == t.CardsOf(k')) &&
      u.place == t.place[c := Placement(FaceOf(faceup), i, |t.CardsOf(k)[i]| + 1, Some(k), faceup, i)] &&
      u.allCards == t.allCards && u.autocompletable == t.autocompletable
  {
  }

  /** A foundation pile takes the next card of its suit. */
  lemma AddedFoundation(t: Table, h: multiset<Card>, c: Card, i: nat)
    requires Holding(t, h) && c in h && i < 4
    requires c.value == |t.foundation[i]| + 1 && c.symbol == Suits[i]
    ensures Holding(Added(t, Foundation, c, true, i), h - multiset{c})
  {
    var u := Added(t, Foundation, c, true, i);
    var pile := t.foundation[i];
    assert PileOk(Foundation, pile, i, t.place);
    forall j | 0 <= j < |pile| ensures pile[j] != c {
      HandNotPiled(t, h, c, Foundation, i);
    }
    assert FoundationPileOk(u.foundation[i], i, u.place);
    Dropped(t, h, u, Foundation, i, c);
  }

  /** A tableau pile takes a card that stacks on its top, or any card when empty. */
  lemma AddedTableau(t: Table, h: multiset<Card>, c: Card, d: nat)
    requires Holding(t, h) && c in h && d < 7
    requires t.tableau[d] != [] ==> Stacks(c, Last(t.tableau[d]))
    ensures Holding(Added(t, Tableau, c, true, d), h - multiset{c})
  {
    var u := Added(t, Tableau, c, true, d);
    var pile := t.tableau[d];
    assert PileOk(Tableau, pile, d, t.place);
    HandNotPiled(t, h, c, Tableau, d);
    assert u.tableau[d] == pile + [c];
    TableauTopped(pile, d, t.place, c);
    Dropped(t, h, u, Tableau, d, c);
  }

  /** A card that stacks on a well-formed tableau pile's top, put there face up, leaves it well formed. */
  lemma TableauTopped(pile: seq<Card>, d: int, p: map<Card, Placement>, c: Card)
    requires Total(p) && TableauPileOk(pile, d, p) && c !in pile
    requires pile != [] ==> Stacks(c, Last(pile))
    ensures TableauPileOk(pile + [c], d, p[c := Put(Tableau, true, d, |pile| + 1)])
  {
    var p' := p[c := Put(Tableau, true, d, |pile| + 1)];
    var n := |pile|;
    var q := pile + [c];
    forall j | 0 <= j < n ensures p'[pile[j]] == p[pile[j]] {
      assert pile[j] in pile;
    }
    forall j | 0 <= j < |q| ensures OnTableau(p'[q[j]], d, j) {
      if j < n {
        assert q[j] == pile[j];
      }
    }
    forall j | 0 <= j < |q| - 1 && p'[q[j]].state == FaceUp
      ensures p'[q[j + 1]].state == FaceUp && Stacks(q[j + 1], q[j])
    {
      assert q[j] == pile[j];
      if j + 1 < n {
        assert q[j + 1] == pile[j + 1];
      }
    }
  }

  /** The stock takes any card, face down. */
  lemma AddedStock(t: Table, h: multiset<Card>, c: Card)
    requires Holding(t, h) && c in h
    ensures Holding(Added(t, Stock, c, false, 0), h - multiset{c})
  {
    var u := Added(t, Stock, c, false, 0);
    var pile := t.stock[0];
    assert PileOk(Stock, pile, 0, t.place);
    HandNotPiled(t, h, c, Stock, 0);
    var q := u.stock[0];
    forall j | 0 <= j < |q| ensures StockPlaced(u.place[q[j]]) {
      if j < |pile| {
        assert q[j] == pile[j] && pile[j] in pile;
      }
    }
    Dropped(t, h, u, Stock, 0, c);
  }

  // ---------------------------------------------------------------------
  // updateOrder
  // ---------------------------------------------------------------------

  /** `updateOrder` fans a face-up pile of distinct waste cards and touches no other card. */
  lemma ReorderFans(place: map<Card, Placement>, w: seq<Card>)
    requires Total(place)
    requires forall x :: multiset(w)[x] <= 1
    requires forall j | 0 <= j < |w| ::
      place[w[j]].state == FaceUp && place[w[j]].index == 0 && place[w[j]].container == Some(Waste)
    ensures Total(Reorder(place, w))
    ensures WastePileOk(w, Reorder(place, w))
    ensures forall x | x !in w :: Reorder(place, w)[x] == place[x]
  {
    forall j | 0 <= j < |w|
      ensures IndexOf(w, w[j]) == j
    {
      var k := IndexOf(w, w[j]);
      if k < j {
        TwiceCounted(w, k, j);
      }
    }
  }

  /** Under the invariant no card lies twice in a pile. */
  lemma PileCounts(t: Table, h: multiset<Card>, k: Container, i: int)
    requires Holding(t, h) && 0 <= i < |t.CardsOf(k)|
    ensures forall x :: multiset(t.CardsOf(k)[i])[x] <= 1
  {
    PileInContents(t, k, i);
    forall x
      ensures multiset(t.CardsOf(k)[i])[x] <= 1
    {
      FullDeckOnce(x);
      assert (Contents(t) + h)[x] == 1;
    }
  }

  /** Cards of a well-formed waste pile are face up in the waste. */
  ghost predicate InWaste(w: seq<Card>, place: map<Card, Placement>)
    requires Total(place)
  {
    forall j | 0 <= j < |w| :: place[w[j]].state == FaceUp && place[w[j]].index == 0 && place[w[j]].container == Some(Waste)
  }

  lemma WasteGrown(w: seq<Card>, c: Card, p: map<Card, Placement>, q: map<Card, Placement>)
    requires Total(p) && Total(q) && WastePileOk(w, p) && c !in w
    requires forall x :: multiset(w)[x] <= 1
    requires q == p[c := Put(Waste, true, 0, |w| + 1)]
    ensures forall x :: multiset(w + [c])[x] <= 1
    ensures InWaste(w + [c], q)
  {
    var r := w + [c];
    forall x ensures multiset(r)[x] <= 1 {
      assert multiset(r) == multiset(w) + multiset{c};
    }
    forall j | 0 <= j < |r|
      ensures q[r[j]].state == FaceUp && q[r[j]].index == 0 && q[r[j]].container == Some(Waste)
    {
      if j < |w| {
        assert r[j] == w[j] && w[j] in w;
      }
    }
  }

  /** Fanning a waste pile changes only the fields of its own cards. */
  lemma RefannedChanges(t: Table, w: seq<Card>, p: map<Card, Placement>, c: Card)
    requires Total(t.place) && Total(p) && |t.waste| == 1 && PileOk(Waste, t.waste[0], 0, t.place)
    requires forall x :: x in w ==> x == c || x in t.waste[0]
    requires forall x | x != c :: p[x] == t.place[x]
    ensures forall x :: Reorder(p, w)[x] != t.place[x] ==>
      x == c || (t.place[x].container == Some(Waste) && t.place[x].index == 0)
  {
    forall x | Reorder(p, w)[x] != t.place[x] && x != c
      ensures t.place[x].container == Some(Waste) && t.place[x].index == 0
    {
      var jj :| 0 <= jj < |t.waste[0]| && t.waste[0][jj] == x;
      PileCardPlaced(Waste, t.waste[0], 0, t.place, jj);
    }
  }

  /** The lifted card c goes face up onto the waste, which is then fanned again. */
  lemma AddedWaste(t: Table, h: multiset<Card>, c: Card)
    requires Holding(t, h) && c in h
    ensures Holding(Reordered(Added(t, Waste, c, true, 0)), h - multiset{c})
  {
    var a := Added(t, Waste, c, true, 0);
    var u := Reordered(a);
    var w := t.waste[0];
    assert PileOk(Waste, t.CardsOf(Waste)[0], 0, t.place);
    HandNotPiled(t, h, c, Waste, 0);
    PileCounts(t, h, Waste, 0);
    assert a.waste[0] == w + [c];
    WasteGrown(w, c, t.place, a.place);
    ReorderFans(a.place, w + [c]);
    RefannedChanges(t, w + [c], a.place, c);
    Dropped(t, h, u, Waste, 0, c);
  }

  // ---------------------------------------------------------------------
  // removeCard
  // ---------------------------------------------------------------------

  /**
   * A card that `removeCard` can take: it lies in the pile its fields name,
   * and a foundation or tableau card is that pile's top.
   */
  ghost predicate Liftable(t: Table, c: Card)
    requires Total(t.place)
  {
    t.place[c].container.Some? &&
    var k := t.place[c].container.value;
    var i := t.place[c].index;
    0 <= i < |t.CardsOf(k)| && c in t.CardsOf(k)[i] &&
    (k == Foundation || k == Tableau ==> Last(t.CardsOf(k)[i]) == c)
  }

  lemma RemovedFoundation(t: Table, h: multiset<Card>, c: Card, i: int)
    requires Holding(t, h) && t.place[c].container == Some(Foundation) && t.place[c].index == i
    requires 0 <= i < 4 && t.foundation[i] != [] && Last(t.foundation[i]) == c
    ensures Holding(BaseRemoved(t, Foundation, c), h + multiset{c})
    ensures BaseRemoved(t, Foundation, c).foundation[i] == t.foundation[i][..|t.foundation[i]| - 1]
  {
    var u := BaseRemoved(t, Foundation, c);
    var pile := t.foundation[i];
    TopOnce(t, h, Foundation, i);
    OnceInPile(t, h, Foundation, i, |pile| - 1);
    assert c !in pile[..|pile| - 1];
    assert PileOk(Foundation, pile, i, t.place);
    PoppedFoundationOk(pile, i, t.place, c);
    FoundationRemovedChanges(t, h, c, i);
    Lifted(t, h, u, Foundation, i, c);
  }

  /** The inherited `removeCard` of a foundation card changes its own pile, and that card's fields, only. */
  lemma FoundationRemovedChanges(t: Table, h: multiset<Card>, c: Card, i: int)
    requires Total(t.place) && t.place[c].container == Some(Foundation) && t.place[c].index == i
    requires 0 <= i < |t.foundation|
    ensures Total(BaseRemoved(t, Foundation, c).place)
    ensures ChangesOnly(t, h, BaseRemoved(t, Foundation, c), Foundation, i)
  {
    var u := BaseRemoved(t, Foundation, c);
    assert u.tableau == t.tableau && u.stock == t.stock && u.waste == t.waste;
    assert |u.foundation| == |t.foundation|;
    assert forall i' | 0 <= i' < |t.foundation| && i' != i :: u.foundation[i'] == t.foundation[i'];
  }

  /** A foundation pile without its top card is still well formed once that card has left. */
  lemma PoppedFoundationOk(pile: seq<Card>, i: int, p: map<Card, Placement>, c: Card)
    requires 0 <= i < 4 && Total(p) && FoundationPileOk(pile, i, p)
    requires pile != [] && Last(pile) == c && c !in pile[..|pile| - 1]
    ensures FoundationPileOk(pile[..|pile| - 1], i, p[c := p[c].(container := None)])
  {
    var q := pile[..|pile| - 1];
    forall j | 0 <= j < |q|
      ensures q[j].value == j + 1 && q[j].symbol == Suits[i] && p[c := p[c].(container := None)][q[j]] == Put(Foundation, true, i, j + 1)
    {
      assert q[j] == pile[j] && q[j] != c;
    }
  }

  /** A tableau pile without its top card, the new top turned face up, is still well formed. */
  lemma ShrunkPileOk(pile: seq<Card>, i: int, p: map<Card, Placement>, q: map<Card, Placement>)
    requires Total(p) && Total(q) && TableauPileOk(pile, i, p) && |pile| > 0
    requires var r := pile[..|pile| - 1];
      forall j | 0 <= j < |r| :: q[r[j]] == if j == |r| - 1 then p[r[j]].(state := FaceUp, dragEnabled := true) else p[r[j]]
    ensures TableauPileOk(pile[..|pile| - 1], i, q)
  {
    var r := pile[..|pile| - 1];
    forall j | 0 <= j < |r| ensures OnTableau(q[r[j]], i, j) {
      assert r[j] == pile[j];
      assert OnTableau(p[pile[j]], i, j);
    }
    forall j | 0 <= j < |r| - 1 && q[r[j]].state == FaceUp
      ensures q[r[j + 1]].state == FaceUp && Stacks(r[j + 1], r[j])
    {
      assert r[j] == pile[j] && r[j + 1] == pile[j + 1];
    }
  }

  /** After `Tableau.removeCard` of a pile's top, the cards left keep their fields, the new top turned face up. */
  lemma TableauRemovedPlaces(t: Table, c: Card, i: int)
    requires Total(t.place) && t.place[c].index == i
    requires 0 <= i < |t.tableau| && t.tableau[i] != [] && Last(t.tableau[i]) == c
    requires RemoveFirst(t.tableau[i], c) == t.tableau[i][..|t.tableau[i]| - 1]
    requires forall j | 0 <= j < |t.tableau[i]| - 1 :: t.tableau[i][j] != c
    requires forall j | 0 <= j < |t.tableau[i]| - 2 :: t.tableau[i][j] != t.tableau[i][|t.tableau[i]| - 2]
    ensures var u, pile := TableauRemoved(t, c), t.tableau[i];
      u.tableau[i] == pile[..|pile| - 1] &&
      forall j | 0 <= j < |pile| - 1 :: u.place[pile[..|pile| - 1][j]] ==
        if j == |pile| - 2 then t.place[pile[j]].(state := FaceUp, dragEnabled := true) else t.place[pile[j]]
  {
    var u := TableauRemoved(t, c);
    var pile := t.tableau[i];
    var n := |pile|;
    var q := u.tableau[i];
    assert q == pile[..n - 1];
    forall j | 0 <= j < |q|
      ensures u.place[q[j]] == if j == n - 2 then t.place[q[j]].(state := FaceUp, dragEnabled := true) else t.place[q[j]]
    {
      assert q[j] == pile[j];
    }
  }

  /** `Tableau.removeCard` changes pile i, and the fields of its removed card and of its new top only. */
  lemma TableauRemovedChanges(t: Table, h: multiset<Card>, c: Card, i: int)
    requires Total(t.place) && t.place[c].container == Some(Tableau) && t.place[c].index == i
    requires 0 <= i < |t.tableau| && t.tableau[i] != [] && Last(t.tableau[i]) == c
    requires RemoveFirst(t.tableau[i], c) == t.tableau[i][..|t.tableau[i]| - 1]
    requires TableauPileOk(t.tableau[i], i, t.place)
    ensures Total(TableauRemoved(t, c).place)
    ensures ChangesOnly(t, h, TableauRemoved(t, c), Tableau, i)
  {
    var u := TableauRemoved(t, c);
    var pile := t.tableau[i];
    var n := |pile|;
    var q := u.tableau[i];
    assert q == pile[..n - 1];
    forall x | u.place[x] != t.place[x]
      ensures t.place[x].container == Some(Tableau) && t.place[x].index == i
    {
      if x != c {
        assert x == Last(q) == pile[n - 2];
        assert OnTableau(t.place[pile[n - 2]], i, n - 2);
      }
    }
  }

  lemma RemovedTableau(t: Table, h: multiset<Card>, c: Card, i: int)
    requires Holding(t, h) && t.place[c].container == Some(Tableau) && t.place[c].index == i
    requires 0 <= i < 7 && t.tableau[i] != [] && Last(t.tableau[i]) == c
    ensures Holding(TableauRemoved(t, c), h + multiset{c})
    ensures TableauRemoved(t, c).tableau[i] == t.tableau[i][..|t.tableau[i]| - 1]
  {
    var b := BaseRemoved(t, Tableau, c);
    var u := TableauRemoved(t, c);
    var pile := t.tableau[i];
    var n := |pile|;
    TopOnce(t, h, Tableau, i);
    OnceInPile(t, h, Tableau, i, n - 1);
    if n >= 2 {
      OnceInPile(t, h, Tableau, i, n - 2);
    }
    assert PileOk(Tableau, pile, i, t.place);
    TableauRemovedPlaces(t, c, i);
    ShrunkPileOk(pile, i, t.place, u.place);
    TableauRemovedChanges(t, h, c, i);
    Lifted(t, h, u, Tableau, i, c);
  }

  lemma RemovedStock(t: Table, h: multiset<Card>, c: Card)
    requires Holding(t, h) && c in t.stock[0]
    ensures Holding(t.(stock := t.stock[0 := RemoveFirst(t.stock[0], c)]), h + multiset{c})
  {
    var u := t.(stock := t.stock[0 := RemoveFirst(t.stock[0], c)]);
    StockRemains(t, h, c, u.place);
    Lifted(t, h, u, Stock, 0, c);
  }

  /** What remains of a stock pile after a removal is still face down. */
  lemma StockRemains(t: Table, h: multiset<Card>, c: Card, q: map<Card, Placement>)
    requires Holding(t, h) && c in t.stock[0] && Total(q)
    requires forall x | x != c :: q[x] == t.place[x]
    ensures PileOk(Stock, RemoveFirst(t.stock[0], c), 0, q)
  {
    var pile := t.stock[0];
    var r := RemoveFirst(pile, c);
    assert PileOk(Stock, t.CardsOf(Stock)[0], 0, t.place);
    PileCounts(t, h, Stock, 0);
    forall j | 0 <= j < |r| ensures StockPlaced(q[r[j]]) {
      assert r[j] in multiset(r);
      assert r[j] in multiset(pile) && r[j] != c;
      var jj :| 0 <= jj < |pile| && pile[jj] == r[j];
    }
  }

  lemma BaseRemovedStock(t: Table, h: multiset<Card>, c: Card)
    requires Holding(t, h) && t.place[c].container == Some(Stock) && t.place[c].index == 0 && c in t.stock[0]
    ensures Holding(BaseRemoved(t, Stock, c), h + multiset{c})
    ensures BaseRemoved(t, Stock, c).stock[0] == RemoveFirst(t.stock[0], c)
  {
    var u := BaseRemoved(t, Stock, c);
    StockRemains(t, h, c, u.place);
    Lifted(t, h, u, Stock, 0, c);
  }

  /** What remains of a waste pile after a removal is face up in the waste and holds no card twice. */
  lemma WasteShrunk(w: seq<Card>, c: Card, p: map<Card, Placement>, q: map<Card, Placement>)
    requires Total(p) && Total(q) && WastePileOk(w, p) && c in w
    requires forall x :: multiset(w)[x] <= 1
    requires forall x | x != c :: q[x] == p[x]
    ensures forall x :: multiset(RemoveFirst(w, c))[x] <= 1
    ensures InWaste(RemoveFirst(w, c), q)
    ensures forall x :: x in RemoveFirst(w, c) ==> x in w
  {
    var r := RemoveFirst(w, c);
    forall j | 0 <= j < |r|
      ensures q[r[j]].state == FaceUp && q[r[j]].index == 0 && q[r[j]].container == Some(Waste)
    {
      assert r[j] in multiset(r);
      assert r[j] in multiset(w) && r[j] != c;
      var jj :| 0 <= jj < |w| && w[jj] == r[j];
    }
    forall x | x in r ensures x in w {
      assert x in multiset(r);
    }
  }

  lemma RemovedWaste(t: Table, h: multiset<Card>, c: Card)
    requires Holding(t, h) && t.place[c].container == Some(Waste) && t.place[c].index == 0 && c in t.waste[0]
    ensures Holding(WasteRemoved(t, c), h + multiset{c})
    ensures WasteRemoved(t, c).waste[0] == RemoveFirst(t.waste[0], c)
  {
    var b := BaseRemoved(t, Waste, c);
    var u := WasteRemoved(t, c);
    var pile := t.waste[0];
    var r := RemoveFirst(pile, c);
    assert PileOk(Waste, t.CardsOf(Waste)[0], 0, t.place);
    PileCounts(t, h, Waste, 0);
    assert b.waste[0] == r;
    WasteShrunk(pile, c, t.place, b.place);
    ReorderFans(b.place, r);
    RefannedChanges(t, r, b.place, c);
    Lifted(t, h, u, Waste, 0, c);
  }

  /** `card.container.removeCard(card)` takes the card out of its own pile and out of no other. */
  lemma RemovedPiles(t: Table, c: Card)
    requires Total(t.place) && Liftable(t, c)
    ensures Removable(t, c)
    ensures var k, i := t.place[c].container.value, t.place[c].index;
      var u := Removed(t, c);
      u.CardsOf(k) == t.CardsOf(k)[i := RemoveFirst(t.CardsOf(k)[i], c)] &&
      (forall k' :: k' != k ==> u.CardsOf(k') == t.CardsOf(k')) &&
      u.allCards == t.allCards && u.autocompletable == t.autocompletable
  {
  }

  /** `removeCard` turns no card face down: every other card keeps its face or is turned face up. */
  lemma RemovedStates(t: Table, c: Card)
    requires Removable(t, c)
    ensures Total(Removed(t, c).place)
    ensures forall x | x != c :: Removed(t, c).place[x].state == t.place[x].state || Removed(t, c).place[x].state == FaceUp
  {
    match t.place[c].container.value
    case Tableau =>
    case Waste =>
    case k =>
  }

  /** `card.container.removeCard(card)` on a liftable card keeps the table consistent, the card lifted. */
  lemma RemovedLifted(t: Table, h: multiset<Card>, c: Card)
    requires Holding(t, h) && Liftable(t, c)
    ensures Removable(t, c) && Holding(Removed(t, c), h + multiset{c})
  {
    var k, i := t.place[c].container.value, t.place[c].index;
    match k
    case Foundation =>
      RemovedFoundation(t, h, c, i);
    case Tableau =>
      RemovedTableau(t, h, c, i);
    case Stock =>
      BaseRemovedStock(t, h, c);
    case Waste =>
      RemovedWaste(t, h, c);
  }

  /** Taking `card` out of its pile (giving r) and then putting it on pile j of container k2 (giving u) is a move of that card alone. */
  lemma CardMovedBy(t: Table, r: Table, u: Table, card: Card, k2: Container, j: int)
    requires Total(t.place) && t.place[card].container.Some?
    requires var k, i := t.place[card].container.value, t.place[card].index;
      0 <= i < |t.CardsOf(k)| && 0 <= j < |t.CardsOf(k2)| && (k, i) != (k2, j) &&
      r.CardsOf(k) == t.CardsOf(k)[i := RemoveFirst(t.CardsOf(k)[i], card)] &&
      (forall k' :: k' != k ==> r.CardsOf(k') == t.CardsOf(k')) &&
      j < |r.CardsOf(k2)| && u.CardsOf(k2) == r.CardsOf(k2)[j := r.CardsOf(k2)[j] + [card]] &&
      (forall k' :: k' != k2 ==> u.CardsOf(k') == r.CardsOf(k'))
    requires u.allCards == t.allCards && u.autocompletable == t.autocompletable
    ensures CardMoved(t, u, card, k2, j)
  {
    var k, i := t.place[card].container.value, t.place[card].index;
    assert r.CardsOf(k2)[j] == t.CardsOf(k2)[j];
    forall c ensures |u.CardsOf(c)| == |t.CardsOf(c)| {
      assert |u.CardsOf(c)| == |r.CardsOf(c)|;
    }
    forall c, x | 0 <= x < |t.CardsOf(c)| && (c, x) != (k, i) && (c, x) != (k2, j)
      ensures u.CardsOf(c)[x] == t.CardsOf(c)[x]
    {
      assert u.CardsOf(c)[x] == r.CardsOf(c)[x];
    }
  }

  /**
   * `card.container.removeCard(card)` followed by `addCard(card, faceup, j)` on
   * another pile: the card leaves its own pile by `list.remove`, lies on top of
   * pile j, and no other pile changes.
   */
  lemma OneCardMoved(t: Table, card: Card, k2: Container, j: int, faceup: bool)
    requires Total(t.place) && Liftable(t, card) && 0 <= j < |t.CardsOf(k2)|
    requires (t.place[card].container.value, t.place[card].index) != (k2, j)
    ensures Removable(t, card) && j < |Removed(t, card).CardsOf(k2)|
    ensures CardMoved(t, Added(Removed(t, card), k2, card, faceup, j), card, k2, j)
  {
    var k, i := t.place[card].container.value, t.place[card].index;
    RemovedPiles(t, card);
    var r := Removed(t, card);
    AddedPlaces(r, k2, card, faceup, j);
    CardMovedBy(t, r, Added(r, k2, card, faceup, j), card, k2, j);
  }

  // ---------------------------------------------------------------------
  // Stock.validateMove and Stock.reload
  // ---------------------------------------------------------------------

  /** `Stock.validateMove`: the card leaves the stock and becomes the draggable top of the waste, face up. */
  lemma AdvancedShape(t: Table, h: multiset<Card>, c: Card)
    requires Holding(t, h) && c in t.stock[0]
    ensures var u := Advanced(t, c);
      u.stock[0] == RemoveFirst(t.stock[0], c) && u.waste[0] == t.waste[0] + [c] &&
      u.foundation == t.foundation && u.tableau == t.tableau &&
      u.allCards == t.allCards && u.autocompletable == t.autocompletable &&
      u.place[c] == Placement(FaceUp, 0, |t.waste[0]| + 1, Some(Waste), true, 0)
  {
    AdvancedKeeps(t, h, c);
    var u := Advanced(t, c);
    assert WastePileOk(u.waste[0], u.place) by {
      assert PileOk(Waste, u.CardsOf(Waste)[0], 0, u.place);
    }
    assert u.waste[0][|t.waste[0]|] == c;
  }

  /** `Stock.validateMove` keeps the table consistent. */
  lemma AdvancedKeeps(t: Table, h: multiset<Card>, c: Card)
    requires Holding(t, h) && c in t.stock[0]
    ensures Holding(Advanced(t, c), h)
  {
    var t1 := t.(stock := t.stock[0 := RemoveFirst(t.stock[0], c)]);
    RemovedStock(t, h, c);
    AddedWaste(t1, h + multiset{c}, c);
    assert h + multiset{c} - multiset{c} == h;
  }

  /** What `reload` does to the piles: the waste, reversed, goes on top of the stock. */
  lemma {:induction false} ReloadedPiles(t: Table)
    requires |t.waste| > 0 && |t.stock| > 0
    ensures var r := Reloaded(t);
      r.stock == t.stock[0 := t.stock[0] + Reverse(t.waste[0])] &&
      r.waste == t.waste[0 := []] && r.foundation == t.foundation && r.tableau == t.tableau &&
      r.allCards == t.allCards && r.autocompletable == t.autocompletable
    decreases |t.waste[0]|
  {
    var w := t.waste[0];
    var s := t.stock[0];
    if w != [] {
      var n := |w| - 1;
      var t2 := Added(t.(waste := t.waste[0 := w[..n]]), Stock, Last(w), false, 0);
      ReloadOne(t);
      ReloadedPiles(t2);
      assert Reverse(w) == [Last(w)] + Reverse(w[..n]);
      assert (s + [Last(w)]) + Reverse(w[..n]) == s + Reverse(w);
      assert t2.waste[0 := []] == t.waste[0 := []];
    } else {
      assert t.waste[0 := []] == t.waste;
      assert Reverse(w) == [] && s + [] == s;
      assert t.stock[0 := t.stock[0] + Reverse(w)] == t.stock;
    }
  }

  /** One turn of `reload`: the waste's top card goes onto the stock, and the piles change by that card only. */
  lemma ReloadOne(t: Table)
    requires |t.waste| > 0 && |t.stock| > 0 && t.waste[0] != []
    ensures var w := t.waste[0];
      var t2 := Added(t.(waste := t.waste[0 := w[..|w| - 1]]), Stock, Last(w), false, 0);
      Reloaded(t2) == Reloaded(t) &&
      t2.stock == t.stock[0 := t.stock[0] + [Last(w)]] && t2.waste == t.waste[0 := w[..|w| - 1]] &&
      t2.foundation == t.foundation && t2.tableau == t.tableau &&
      t2.allCards == t.allCards && t2.autocompletable == t.autocompletable
  {
  }

  /** What `reload` does to the cards' fields: every waste card is now a face-down stock card. */
  lemma {:induction false} ReloadedPlaces(t: Table)
    requires |t.waste| > 0 && |t.stock| > 0
    ensures var r := Reloaded(t);
      (forall x | x in t.waste[0] :: x in r.place && StockPlaced(r.place[x])) &&
      (forall x | x in t.place && x !in t.waste[0] :: x in r.place && r.place[x] == t.place[x]) &&
      (Total(t.place) ==> Total(r.place))
    decreases |t.waste[0]|
  {
    var w := t.waste[0];
    if w != [] {
      var n := |w| - 1;
      var t2 := Added(t.(waste := t.waste[0 := w[..n]]), Stock, Last(w), false, 0);
      ReloadedPlaces(t2);
      var r := Reloaded(t);
      assert r == Reloaded(t2);
      assert w == w[..n] + [Last(w)];
      forall x | x in w ensures x in r.place && StockPlaced(r.place[x]) {
        if x !in w[..n] {
          assert x == Last(w);
          assert t2.place[x] == Put(Stock, false, 0, |t.stock[0]| + 1);
        }
      }
      forall x | x in t.place && x !in w ensures x in r.place && r.place[x] == t.place[x] {
        assert x !in w[..n] && x != Last(w);
      }
    }
  }

  /** Emptying the waste lifts all its cards. */
  lemma WasteEmptied(t: Table, h: multiset<Card>)
    requires Holding(t, h)
    ensures Holding(t.(waste := [[]]), h + multiset(t.waste[0]))
  {
    var m := t.(waste := [[]]);
    assert PileOk(Waste, m.CardsOf(Waste)[0], 0, m.place);
    assert multiset(m.waste[0]) + (h + multiset(t.waste[0])) == multiset(t.waste[0]) + h;
    Replaced(t, h, m, Waste, 0, h + multiset(t.waste[0]));
  }

  /** `reload` keeps the table consistent. */
  lemma ReloadedKeeps(t: Table, h: multiset<Card>)
    requires Holding(t, h)
    ensures Holding(Reloaded(t), h)
  {
    var w := t.waste[0];
    var s := t.stock[0];
    var r := Reloaded(t);
    ReloadedPiles(t);
    ReloadedPlaces(t);
    var m := t.(waste := [[]]);
    WasteEmptied(t, h);
    StockRefilled(t, r, m, h);
  }

  /** The stock pile with the reversed waste on top has only face-down stock cards. */
  lemma RefilledPile(s: seq<Card>, w: seq<Card>, p: map<Card, Placement>, q: map<Card, Placement>)
    requires Total(p) && Total(q)
    requires forall j | 0 <= j < |s| :: StockPlaced(p[s[j]])
    requires forall x | x in s :: x !in w
    requires forall x | x in w :: StockPlaced(q[x])
    requires forall x | x !in w :: q[x] == p[x]
    ensures forall j | 0 <= j < |s + Reverse(w)| :: StockPlaced(q[(s + Reverse(w))[j]])
  {
    var v := s + Reverse(w);
    forall j | 0 <= j < |v| ensures StockPlaced(q[v[j]]) {
      if j < |s| {
        assert v[j] == s[j] && s[j] in s;
      } else {
        assert v[j] == w[|w| - 1 - (j - |s|)];
      }
    }
  }

  /** The cards of the emptied waste are lifted, so none of them lies on the stock. */
  lemma WasteApart(m: Table, h: multiset<Card>, w: seq<Card>)
    requires Holding(m, h) && multiset(w) <= h
    ensures forall x | x in m.stock[0] :: x !in w
  {
    forall x | x in m.stock[0]
      ensures x !in w
    {
      if x in w {
        HandNotPiled(m, h, x, Stock, 0);
      }
    }
  }

  /** Refilling the stock changes the stock pile and the fields of the lifted waste cards only. */
  lemma RefillChanges(m: Table, h: multiset<Card>, r: Table, w: seq<Card>)
    requires Total(m.place) && Total(r.place) && multiset(w) <= h
    requires |m.stock| == 1 && |r.stock| == 1
    requires r.waste == m.waste && r.foundation == m.foundation && r.tableau == m.tableau && r.allCards == m.allCards
    requires forall x | x !in w :: r.place[x] == m.place[x]
    ensures ChangesOnly(m, h, r, Stock, 0)
  {
    forall x | r.place[x] != m.place[x]
      ensures x in h
    {
      assert x in multiset(w);
    }
  }

  /** Changing tableau pile i, and the fields of lifted cards only, is a change of that pile alone. */
  lemma TableauPileChanges(t: Table, h: multiset<Card>, u: Table, i: int)
    requires Total(t.place) && Total(u.place)
    requires u.foundation == t.foundation && u.stock == t.stock && u.waste == t.waste && u.allCards == t.allCards
    requires |u.tableau| == |t.tableau| && forall i' | 0 <= i' < |t.tableau| && i' != i :: u.tableau[i'] == t.tableau[i']
    requires forall x :: u.place[x] != t.place[x] ==> x in h
    ensures ChangesOnly(t, h, u, Tableau, i)
  {
  }

  lemma StockRefilled(t: Table, r: Table, m: Table, h: multiset<Card>)
    requires Holding(t, h) && m == t.(waste := [[]]) && Holding(m, h + multiset(t.waste[0]))
    requires var w := t.waste[0];
      r.stock == t.stock[0 := t.stock[0] + Reverse(w)] &&
      r.waste == [[]] && r.foundation == t.foundation && r.tableau == t.tableau && r.allCards == t.allCards &&
      (forall x | x in w :: x in r.place && StockPlaced(r.place[x])) &&
      (forall x | x in t.place && x !in w :: x in r.place && r.place[x] == t.place[x]) && Total(r.place)
    ensures Holding(r, h)
  {
    var w := t.waste[0];
    var s := t.stock[0];
    var h' := h + multiset(w);
    assert PileOk(Stock, t.CardsOf(Stock)[0], 0, t.place);
    WasteApart(m, h', w);
    RefilledPile(s, w, t.place, r.place);
    assert PileOk(Stock, r.CardsOf(Stock)[0], 0, r.place);
    ReverseMultiset(w);
    assert multiset(s + Reverse(w)) + h == multiset(s) + h';
    RefillChanges(m, h', r, w);
    Replaced(m, h', r, Stock, 0, h);
  }
}
