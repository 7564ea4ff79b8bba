/**
 * Sequence operations that the containers use on their piles, with the
 * facts about them that the rest of the model relies on.
 */
module Piles {

  function Last<T>(s: seq<T>): T
    requires |s| > 0
  {
    s[|s| - 1]
  }

  /** The position of the first occurrence of `x` (Python's `list.index`). */
  function IndexOf<T(==)>(s: seq<T>, x: T): (k: nat)
    requires x in s
    ensures k < |s| && s[k] == x
    ensures forall j :: 0 <= j < k ==> s[j] != x
  {
    if s[0] == x then 0 else 1 + IndexOf(s[1..], x)
  }

  /** Python's `list.remove`: drops the first occurrence of `x`; a list without `x` is left alone. */
  function RemoveFirst<T(==)>(s: seq<T>, x: T): (r: seq<T>)
    ensures multiset(r) == multiset(s) - multiset{x}
    ensures x in s ==> |r| == |s| - 1
    ensures x !in s ==> r == s
  {
    if x in s then
      var k := IndexOf(s, x);
      assert s == s[..k] + [x] + s[k + 1..];
      s[..k] + s[k + 1..]
    else
      s
  }

  /** Removing the only occurrence of the last element pops it. */
  lemma RemoveLast<T>(s: seq<T>)
    requires |s| > 0 && Last(s) !in s[..|s| - 1]
    ensures RemoveFirst(s, Last(s)) == s[..|s| - 1]
  {
    assert IndexOf(s, Last(s)) == |s| - 1;
  }

  /** An element found at two positions is counted twice. */
  lemma TwiceCounted<T>(s: seq<T>, a: nat, b: nat)
    requires a < b < |s| && s[a] == s[b]
    ensures multiset(s)[s[a]] >= 2
  {
    assert s == s[..b] + s[b..];
    assert s[a] in s[..b] && s[b] in s[b..];
  }

  /** In a sequence that holds no element twice, an element occurs nowhere but at its own position. */
  lemma Unique<T>(s: seq<T>, a: int)
    requires forall x :: multiset(s)[x] <= 1
    requires 0 <= a < |s|
    ensures s[a] !in s[..a] && s[a] !in s[a + 1..]
  {
    if s[a] in s[..a] {
      var b :| 0 <= b < a && s[b] == s[a];
      TwiceCounted(s, b, a);
    }
    if s[a] in s[a + 1..] {
      var b :| a < b < |s| && s[b] == s[a];
      TwiceCounted(s, a, b);
    }
  }

  /** Removing an element whose first occurrence is at position a. */
  lemma RemoveAt<T>(s: seq<T>, a: int)
    requires 0 <= a < |s| && s[a] !in s[..a]
    ensures RemoveFirst(s, s[a]) == s[..a] + s[a + 1..]
  {
    assert forall j | 0 <= j < a :: s[j] != s[a];
  }

  function Reverse<T>(s: seq<T>): (r: seq<T>)
    ensures |r| == |s|
    ensures forall i :: 0 <= i < |s| ==> r[i] == s[|s| - 1 - i]
  {
    if s == [] then [] else [Last(s)] + Reverse(s[..|s| - 1])
  }

  lemma {:induction false} ReverseMultiset<T>(s: seq<T>)
    ensures multiset(Reverse(s)) == multiset(s)
  {
    if s != [] {
      ReverseMultiset(s[..|s| - 1]);
      assert s == s[..|s| - 1] + [Last(s)];
    }
  }

  /** All the cards of a container, pile after pile. */
  function Flatten<T>(ps: seq<seq<T>>): seq<T>
  {
    if ps == [] then [] else Flatten(ps[..|ps| - 1]) + Last(ps)
  }

  /** Replacing one pile changes the container's contents by exactly that pile. */
  lemma {:induction false} FlattenUpdate<T>(ps: seq<seq<T>>, i: nat, t: seq<T>)
    requires i < |ps|
    ensures multiset(Flatten(ps[i := t])) + multiset(ps[i]) == multiset(Flatten(ps)) + multiset(t)
  {
    var n := |ps| - 1;
    var qs := ps[i := t];
    assert Flatten(qs) == Flatten(qs[..n]) + Last(qs);
    assert Flatten(ps) == Flatten(ps[..n]) + Last(ps);
    if i < n {
      var ps' := ps[..n];
      assert qs[..n] == ps'[i := t];
      assert ps'[i] == ps[i];
      assert Last(qs) == Last(ps);
      FlattenUpdate(ps', i, t);
      calc {
        multiset(Flatten(qs)) + multiset(ps[i]);
        multiset(Flatten(ps'[i := t])) + multiset(Last(ps)) + multiset(ps'[i]);
        multiset(Flatten(ps')) + multiset(t) + multiset(Last(ps));
        multiset(Flatten(ps)) + multiset(t);
      }
    } else {
      assert qs[..n] == ps[..n];
    }
  }

  /** Every pile is part of the container's contents. */
  lemma {:induction false} PileInFlatten<T>(ps: seq<seq<T>>, i: nat)
    requires i < |ps|
    ensures multiset(ps[i]) <= multiset(Flatten(ps))
  {
    var n := |ps| - 1;
    if i < n {
      PileInFlatten(ps[..n], i);
    }
  }

  /** Containers that have only empty piles hold nothing. */
  lemma {:induction false} FlattenEmpty<T>(ps: seq<seq<T>>)
    requires forall i :: 0 <= i < |ps| ==> ps[i] == []
    ensures Flatten(ps) == []
  {
    if ps != [] {
      FlattenEmpty(ps[..|ps| - 1]);
    }
  }

  /** An element of the contents sits in some pile. */
  lemma {:induction false} InFlatten<T>(ps: seq<seq<T>>, x: T) returns (i: nat)
    requires x in multiset(Flatten(ps))
    ensures i < |ps| && x in ps[i]
  {
    var n := |ps| - 1;
    if x in Last(ps) {
      i := n;
    } else {
      assert x in multiset(Flatten(ps[..n]));
      i := InFlatten(ps[..n], x);
    }
  }

  /** The length of the contents is the sum of the pile lengths. */
  function SumLengths<T>(ps: seq<seq<T>>): nat
  {
    if ps == [] then 0 else SumLengths(ps[..|ps| - 1]) + |Last(ps)|
  }

  lemma {:induction false} FlattenLength<T>(ps: seq<seq<T>>)
    ensures |Flatten(ps)| == SumLengths(ps)
  {
    if ps != [] {
      FlattenLength(ps[..|ps| - 1]);
    }
  }

  /** A container whose lengths sum to zero has only empty piles. */
  lemma {:induction false} SumZero<T>(ps: seq<seq<T>>)
    ensures SumLengths(ps) == 0 <==> forall i | 0 <= i < |ps| :: ps[i] == []
  {
    if ps != [] {
      var n := |ps| - 1;
      SumZero(ps[..n]);
      assert forall i | 0 <= i < n :: ps[..n][i] == ps[i];
    }
  }

  /** Appending to one pile adds one to the sum of the lengths. */
  lemma {:induction false} SumGrown<T>(ps: seq<seq<T>>, i: int, x: T)
    requires 0 <= i < |ps|
    ensures SumLengths(ps[i := ps[i] + [x]]) == SumLengths(ps) + 1
  {
    var n := |ps| - 1;
    var qs := ps[i := ps[i] + [x]];
    if i < n {
      assert qs[..n] == ps[..n][i := ps[i] + [x]];
      SumGrown(ps[..n], i, x);
    } else {
      assert qs[..n] == ps[..n];
    }
  }
}
