/**
 * `ShuffleCards`: the layout a fresh deal produces from the shuffled
 * `all_cards`, and the proof that it is a consistent table.
 */
module Dealing {
  import opened PlayingCards
  import opened Piles
  import opened Containers
  import opened ContainerFacts

  /** The number of stock cards, `24 + (7 * removes - sum(range(0, removes)))` with `removes` fixed at 0. */
  const StockSize := 24

  /** The number of tableau cards dealt before column i: 1 + 2 + ... + i. */
  function Tri(i: nat): nat
    requires i <= 7
  {
    [0, 1, 3, 6, 10, 15, 21, 28][i]
  }

  lemma TriStep(i: nat)
    requires i < 7
    ensures Tri(i + 1) == Tri(i) + i + 1
  {
  }

  /** Column i of a fresh deal: the next i + 1 cards after the stock and the earlier columns. */
  function Column(perm: seq<Card>, i: nat): (col: seq<Card>)
    requires i < 7 && |perm| == 52
    ensures |col| == i + 1
  {
    TriStep(i);
    assert Tri(7) == 28 && StockSize + Tri(i + 1) <= 52 by {
      if i < 6 {
        TriMono(i + 1, 7);
      }
    }
    perm[StockSize + Tri(i)..StockSize + Tri(i) + i + 1]
  }

  /** Column i, read at the offset n where the deal loop starts it. */
  lemma ColumnSlice(perm: seq<Card>, i: nat, n: int)
    requires i < 7 && |perm| == 52 && n == StockSize + Tri(i)
    ensures n + i + 1 <= 52 && Column(perm, i) == perm[n..n + i + 1]
  {
    TriStep(i);
    TriMono(i + 1, 7);
  }

  lemma {:induction false} TriMono(i: nat, j: nat)
    requires i <= j <= 7
    ensures Tri(i) <= Tri(j)
    decreases j - i
  {
    if i < j {
      TriStep(i);
      TriMono(i + 1, j);
    }
  }

  /** The tableau column that takes the k-th tableau card of the deal. */
  function ColumnOf(k: int): (i: nat)
    requires 0 <= k < 28
    ensures i < 7 && Tri(i) <= k < Tri(i) + i + 1
  {
    if k < 1 then 0 else if k < 3 then 1 else if k < 6 then 2 else if k < 10 then 3
    else if k < 15 then 4 else if k < 21 then 5 else 6
  }

  /** The fields `addCard` gives the card dealt p-th: face down on the stock, or in its tableau column, face up only on top. */
  function DealtPlace(p: int): Placement
    requires 0 <= p < 52
  {
    if p < StockSize then Put(Stock, false, 0, p + 1)
    else
      var i := ColumnOf(p - StockSize);
      var j := p - StockSize - Tri(i);
      Put(Tableau, i == j, i, j + 1)
  }

  /**
   * `ShuffleCards` after `random.shuffle` put `all_cards` in the order `perm`:
   * the containers reset, the first 24 cards face down on the stock, then
   * columns 0 to 6. `Autocompletable` is left as it was.
   */
  function Dealt(t: Table, perm: seq<Card>): Table
    requires multiset(perm) == multiset(FullDeck())
  {
    assert |perm| == |multiset(perm)| == 52;
    Table(
      [[], [], [], []],
      seq(7, i requires 0 <= i < 7 => Column(perm, i)),
      [perm[..StockSize]],
      [[]],
      map c | c in perm :: DealtPlace(IndexOf(perm, c)),
      perm,
      t.autocompletable)
  }

  // ---------------------------------------------------------------------
  // The deal is a consistent table
  // ---------------------------------------------------------------------

  /** A permutation of the deck holds every card once, at its own position. */
  lemma PermIndex(perm: seq<Card>, p: int)
    requires multiset(perm) == multiset(FullDeck()) && 0 <= p < |perm|
    ensures IndexOf(perm, perm[p]) == p
  {
    forall x
      ensures multiset(perm)[x] <= 1
    {
      FullDeckOnce(x);
    }
    Unique(perm, p);
  }

  lemma PermHoldsAll(perm: seq<Card>, c: Card)
    requires multiset(perm) == multiset(FullDeck())
    ensures c in perm
  {
    FullDeckOnce(c);
  }

  /** Tableau columns 0..n-1, one after another, are the shuffled cards right after the stock. */
  lemma {:induction false} ColumnsFlatten(perm: seq<Card>, cols: seq<seq<Card>>, n: nat)
    requires |perm| == 52 && |cols| == 7 && n <= 7
    requires forall i | 0 <= i < 7 :: cols[i] == Column(perm, i)
    ensures StockSize + Tri(n) <= 52
    ensures Flatten(cols[..n]) == perm[StockSize..StockSize + Tri(n)]
  {
    TriMono(n, 7);
    if n > 0 {
      ColumnsFlatten(perm, cols, n - 1);
      TriStep(n - 1);
      assert cols[..n][..n - 1] == cols[..n - 1];
      assert Last(cols[..n]) == Column(perm, n - 1);
      assert perm[StockSize..StockSize + Tri(n)] ==
        perm[StockSize..StockSize + Tri(n - 1)] + perm[StockSize + Tri(n - 1)..StockSize + Tri(n)];
    }
  }

  lemma DealtContents(t: Table, perm: seq<Card>)
    requires multiset(perm) == multiset(FullDeck())
    ensures Contents(Dealt(t, perm)) == multiset(perm)
  {
    var u := Dealt(t, perm);
    DealtFlattened(t, perm);
    assert perm == perm[..StockSize] + perm[StockSize..52];
  }

  /** What each container of a fresh deal holds, pile after pile. */
  lemma DealtFlattened(t: Table, perm: seq<Card>)
    requires multiset(perm) == multiset(FullDeck())
    ensures |perm| == 52
    ensures var u := Dealt(t, perm);
      Flatten(u.foundation) == [] && Flatten(u.waste) == [] &&
      Flatten(u.stock) == perm[..StockSize] && Flatten(u.tableau) == perm[StockSize..52]
  {
    var u := Dealt(t, perm);
    assert |perm| == |multiset(perm)| == 52;
    var cols := u.tableau;
    assert forall i | 0 <= i < 7 :: cols[i] == Column(perm, i);
    ColumnsFlatten(perm, cols, 7);
    assert cols[..7] == cols;
    FlattenEmpty(u.foundation);
    FlattenEmpty(u.waste);
    assert u.stock[..0] == [];
  }

  /** Each card of a fresh deal has the fields of its deal position. */
  lemma DealtAt(t: Table, perm: seq<Card>, p: int)
    requires multiset(perm) == multiset(FullDeck()) && 0 <= p < |perm|
    ensures |perm| == 52
    ensures Dealt(t, perm).place[perm[p]] == DealtPlace(p)
  {
    assert |perm| == |multiset(perm)| == 52;
    PermIndex(perm, p);
  }

  /** The k-th tableau card of the deal lands in the column whose cards it is among. */
  lemma ColumnOfCell(i: nat, j: nat)
    requires i < 7 && j <= i
    ensures Tri(i) + j < 28 && ColumnOf(Tri(i) + j) == i
  {
    TriStep(i);
    TriMono(i + 1, 7);
    var i' := ColumnOf(Tri(i) + j);
    if i' < i {
      TriStep(i');
      TriMono(i' + 1, i);
    } else if i' > i {
      TriMono(i + 1, i');
    }
  }

  /** A column whose cards have the fields of a fresh deal is a well-formed tableau pile. */
  lemma ColumnOk(col: seq<Card>, i: nat, place: map<Card, Placement>)
    requires Total(place) && |col| == i + 1
    requires forall j | 0 <= j < |col| :: place[col[j]] == Put(Tableau, i == j, i, j + 1)
    ensures TableauPileOk(col, i, place)
  {
  }

  lemma DealtColumnPlaces(t: Table, perm: seq<Card>, i: int)
    requires multiset(perm) == multiset(FullDeck()) && 0 <= i < 7
    ensures |perm| == 52
    ensures var u := Dealt(t, perm);
      forall j | 0 <= j < |u.tableau[i]| :: u.tableau[i][j] in u.place && u.place[u.tableau[i][j]] == Put(Tableau, i == j, i, j + 1)
  {
    var u := Dealt(t, perm);
    assert |perm| == |multiset(perm)| == 52;
    var col := u.tableau[i];
    TriStep(i);
    TriMono(i + 1, 7);
    forall j | 0 <= j < |col|
      ensures col[j] in u.place && u.place[col[j]] == Put(Tableau, i == j, i, j + 1)
    {
      var p := StockSize + Tri(i) + j;
      assert col[j] == perm[p];
      DealtAt(t, perm, p);
      ColumnOfCell(i, j);
    }
  }

  lemma DealtTotal(t: Table, perm: seq<Card>)
    requires multiset(perm) == multiset(FullDeck())
    ensures Total(Dealt(t, perm).place)
  {
    forall c
      ensures c in Dealt(t, perm).place
    {
      PermHoldsAll(perm, c);
    }
  }

  lemma DealtColumn(t: Table, perm: seq<Card>, i: int)
    requires multiset(perm) == multiset(FullDeck()) && 0 <= i < 7
    ensures var u := Dealt(t, perm);
      Total(u.place) && TableauPileOk(u.tableau[i], i, u.place) &&
      forall j | 0 <= j < |u.tableau[i]| :: u.place[u.tableau[i][j]] == Put(Tableau, i == j, i, j + 1)
  {
    var u := Dealt(t, perm);
    DealtTotal(t, perm);
    DealtColumnPlaces(t, perm, i);
    ColumnOk(u.tableau[i], i, u.place);
  }

  lemma DealtStock(t: Table, perm: seq<Card>)
    requires multiset(perm) == multiset(FullDeck())
    ensures var u := Dealt(t, perm);
      Total(u.place) && forall j | 0 <= j < |u.stock[0]| :: StockPlaced(u.place[u.stock[0][j]])
  {
    var u := Dealt(t, perm);
    assert |perm| == |multiset(perm)| == 52;
    DealtTotal(t, perm);
    forall j | 0 <= j < |u.stock[0]|
      ensures StockPlaced(u.place[u.stock[0][j]])
    {
      DealtAt(t, perm, j);
    }
  }

  /** `ShuffleCards` leaves a consistent table: every card in the pile its fields name, each card once. */
  lemma DealtKeeps(t: Table, perm: seq<Card>)
    requires multiset(perm) == multiset(FullDeck())
    ensures Inv(Dealt(t, perm))
  {
    var u := Dealt(t, perm);
    DealtStock(t, perm);
    forall i | 0 <= i < 7
      ensures TableauPileOk(u.tableau[i], i, u.place)
    {
      DealtColumn(t, perm, i);
    }
    forall k: Container, i | 0 <= i < |u.CardsOf(k)|
      ensures PileOk(k, u.CardsOf(k)[i], i, u.place)
    {
    }
    DealtContents(t, perm);
  }

  /**
   * The shape of a fresh deal: 24 cards face down on the stock, i + 1 cards
   * in column i with only the top one face up, nothing on the foundations or
   * the waste, and the flag untouched.
   */
  lemma DealtShape(t: Table, perm: seq<Card>)
    requires multiset(perm) == multiset(FullDeck())
    ensures var u := Dealt(t, perm);
      Total(u.place) && |u.stock| == 1 && |u.stock[0]| == StockSize && |u.tableau| == 7 &&
      (forall c | c in u.stock[0] :: u.place[c].state == FaceDown) &&
      (forall i | 0 <= i < 7 :: |u.tableau[i]| == i + 1) &&
      (forall i, j | 0 <= i < 7 && 0 <= j < |u.tableau[i]| :: u.place[u.tableau[i][j]].state == FaceUp <==> j == i) &&
      (forall i | 0 <= i < 4 :: u.foundation[i] == []) && u.waste == [[]] &&
      u.autocompletable == t.autocompletable
  {
    var u := Dealt(t, perm);
    assert |perm| == |multiset(perm)| == 52;
    DealtStock(t, perm);
    forall c | c in u.stock[0]
      ensures u.place[c].state == FaceDown
    {
      var j := IndexOf(u.stock[0], c);
      assert StockPlaced(u.place[u.stock[0][j]]);
    }
    forall i, j | 0 <= i < 7 && 0 <= j < |u.tableau[i]|
      ensures u.place[u.tableau[i][j]].state == FaceUp <==> j == i
    {
      DealtColumn(t, perm, i);
    }
  }
}
