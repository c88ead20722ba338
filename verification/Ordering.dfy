/** The library sort the program relies on: stable, by a lexicographic key. */
module Ordering {
  import opened Prelude

  /** `xs` in ascending order of `key`, elements with equal keys keeping their order. */
  function Sort<T>(xs: seq<T>, key: T -> Key): seq<T> {
    if xs == [] then [] else Place(Sort(xs[..|xs| - 1], key), xs[|xs| - 1], key)
  }

  /** Puts `x` behind every element that does not come after it. */
  function Place<T>(xs: seq<T>, x: T, key: T -> Key): seq<T> {
    if xs == [] || !KeyLess(key(x), key(xs[|xs| - 1])) then xs + [x]
    else Place(xs[..|xs| - 1], x, key) + [xs[|xs| - 1]]
  }

  lemma SortAppend<T>(xs: seq<T>, x: T, key: T -> Key)
    ensures Sort(xs + [x], key) == Place(Sort(xs, key), x, key)
  {
    assert (xs + [x])[..|xs|] == xs;
  }

  lemma PlaceInside<T>(front: seq<T>, last: T, x: T, key: T -> Key)
    requires KeyLess(key(x), key(last))
    ensures Place(front + [last], x, key) == Place(front, x, key) + [last]
  {
    assert (front + [last])[..|front|] == front;
  }

  ghost predicate Ascending<T>(xs: seq<T>, key: T -> Key) {
    forall i, j :: 0 <= i < j < |xs| ==> !KeyLess(key(xs[j]), key(xs[i]))
  }

  ghost predicate DistinctKeys<T>(xs: seq<T>, key: T -> Key) {
    forall i, j :: 0 <= i < j < |xs| ==> key(xs[i]) != key(xs[j])
  }

  lemma {:induction false} PlaceKeeps<T>(xs: seq<T>, x: T, key: T -> Key)
    ensures multiset(Place(xs, x, key)) == multiset(xs) + multiset{x}
    ensures |Place(xs, x, key)| == |xs| + 1
    ensures Ascending(xs, key) ==> Ascending(Place(xs, x, key), key)
  {
    if xs == [] || !KeyLess(key(x), key(xs[|xs| - 1])) {
    } else {
      var front, last := xs[..|xs| - 1], xs[|xs| - 1];
      assert xs == front + [last];
      PlaceKeeps(front, x, key);
      var placed := Place(front, x, key);
      if Ascending(xs, key) {
        forall y | y in placed ensures !KeyLess(key(last), key(y)) {
          assert y in multiset(placed);
          assert y == x || y in multiset(front);
          if y != x {
            var i :| 0 <= i < |front| && front[i] == y;
            assert xs[i] == y;
          }
        }
      }
    }
  }

  /** Sorting permutes its input into ascending order. */
  lemma {:induction false} SortKeeps<T>(xs: seq<T>, key: T -> Key)
    ensures multiset(Sort(xs, key)) == multiset(xs)
    ensures |Sort(xs, key)| == |xs|
    ensures Ascending(Sort(xs, key), key)
  {
    if xs == [] {
    } else {
      SortKeeps(xs[..|xs| - 1], key);
      PlaceKeeps(Sort(xs[..|xs| - 1], key), xs[|xs| - 1], key);
      assert xs == xs[..|xs| - 1] + [xs[|xs| - 1]];
    }
  }

  /** A key that repeats within a sequence repeats within every rearrangement of it. */
  lemma {:induction false} DistinctSurvives<T>(xs: seq<T>, ys: seq<T>, key: T -> Key)
    requires DistinctKeys(xs, key) && multiset(ys) <= multiset(xs)
    ensures DistinctKeys(ys, key)
  {
    forall i, j | 0 <= i < j < |ys| && key(ys[i]) == key(ys[j]) ensures false {
      assert ys[i] in multiset(ys) && ys[j] in multiset(ys);
      assert ys[i] in xs && ys[j] in xs;
      assert ys[i] == ys[j];
      CountsTwice(ys, i, j);
      var k :| 0 <= k < |xs| && xs[k] == ys[i];
      CountsOnce(xs, k);
    }
  }

  lemma CountsTwice<T>(xs: seq<T>, i: nat, j: nat)
    requires i < j < |xs| && xs[i] == xs[j]
    ensures multiset(xs)[xs[i]] >= 2
  {
    assert xs == xs[..j] + [xs[j]] + xs[j + 1..];
    assert xs[..j][i] == xs[i];
    assert xs[i] in multiset(xs[..j]);
  }

  lemma CountsOnce<T>(xs: seq<T>, k: nat)
    requires k < |xs| && forall i :: 0 <= i < |xs| && i != k ==> xs[i] != xs[k]
    ensures multiset(xs)[xs[k]] == 1
  {
    assert xs == xs[..k] + [xs[k]] + xs[k + 1..];
    assert xs[k] !in xs[..k] && xs[k] !in xs[k + 1..];
  }

  /** Elements of one key are one element. */
  ghost predicate KeysIdentify<T(!new)>(xs: seq<T>, key: T -> Key) {
    forall i, j :: 0 <= i < |xs| && 0 <= j < |xs| && key(xs[i]) == key(xs[j]) ==> xs[i] == xs[j]
  }

  lemma IdentifySurvives<T(!new)>(xs: seq<T>, ys: seq<T>, key: T -> Key)
    requires KeysIdentify(xs, key) && forall y :: y in ys ==> y in xs
    ensures KeysIdentify(ys, key)
  {
    forall i, j | 0 <= i < |ys| && 0 <= j < |ys| && key(ys[i]) == key(ys[j]) ensures ys[i] == ys[j] {
      assert ys[i] in xs && ys[j] in xs;
      var k :| 0 <= k < |xs| && xs[k] == ys[i];
      var l :| 0 <= l < |xs| && xs[l] == ys[j];
    }
  }

  /** When keys identify elements there is one ascending arrangement, so the input order is forgotten. */
  lemma SortForgetsOrder<T(!new)>(xs: seq<T>, ys: seq<T>, key: T -> Key)
    requires multiset(xs) == multiset(ys) && KeysIdentify(xs, key)
    ensures Sort(xs, key) == Sort(ys, key)
  {
    SortKeeps(xs, key);
    SortKeeps(ys, key);
    SameMembers(xs, Sort(xs, key));
    IdentifySurvives(xs, Sort(xs, key), key);
    hide KeysIdentify, Ascending;
    AscendingUnique(Sort(xs, key), Sort(ys, key), key);
  }

  lemma SameMembers<T>(xs: seq<T>, ys: seq<T>)
    requires multiset(xs) == multiset(ys)
    ensures forall y :: y in ys <==> y in xs
  {
    forall y ensures y in ys <==> y in xs {
      assert y in ys <==> y in multiset(ys);
      assert y in xs <==> y in multiset(xs);
    }
  }

  lemma {:induction false} AscendingUnique<T(!new)>(xs: seq<T>, ys: seq<T>, key: T -> Key)
    requires multiset(xs) == multiset(ys)
    requires Ascending(xs, key) && Ascending(ys, key) && KeysIdentify(xs, key)
    ensures xs == ys
  {
    assert |xs| == |multiset(xs)| == |multiset(ys)| == |ys|;
    if xs == [] {
    } else {
      SameHead(xs, ys, key);
      TailIsOrdered(xs, key);
      TailIsOrdered(ys, key);
      TailIdentifies(xs, key);
      hide Ascending, KeysIdentify;
      AscendingUnique(xs[1..], ys[1..], key);
    }
  }

  lemma TailIsOrdered<T>(xs: seq<T>, key: T -> Key)
    requires xs != [] && Ascending(xs, key)
    ensures Ascending(xs[1..], key)
    ensures xs == [xs[0]] + xs[1..] && multiset(xs[1..]) == multiset(xs) - multiset{xs[0]}
  {
    assert xs == [xs[0]] + xs[1..];
  }

  lemma TailIdentifies<T(!new)>(xs: seq<T>, key: T -> Key)
    requires xs != [] && KeysIdentify(xs, key)
    ensures KeysIdentify(xs[1..], key)
  {
    assert forall y :: y in xs[1..] ==> y in xs;
    IdentifySurvives(xs, xs[1..], key);
  }

  lemma SameHead<T(!new)>(xs: seq<T>, ys: seq<T>, key: T -> Key)
    requires xs != [] && ys != [] && multiset(xs) == multiset(ys)
    requires Ascending(xs, key) && Ascending(ys, key) && KeysIdentify(xs, key)
    ensures xs[0] == ys[0]
  {
    assert xs[0] in multiset(ys) && ys[0] in multiset(xs);
    var i :| 0 <= i < |ys| && ys[i] == xs[0];
    var j :| 0 <= j < |xs| && xs[j] == ys[0];
  }

  // ---- Stability --------------------------------------------------------------------------

  /** The elements of one key, in order. */
  function OfKey<T>(xs: seq<T>, k: Key, key: T -> Key): seq<T> {
    if xs == [] then [] else OfKey(xs[..|xs| - 1], k, key) + if key(xs[|xs| - 1]) == k then [xs[|xs| - 1]] else []
  }

  lemma OfKeyAppend<T>(xs: seq<T>, x: T, k: Key, key: T -> Key)
    ensures OfKey(xs + [x], k, key) == if key(x) == k then OfKey(xs, k, key) + [x] else OfKey(xs, k, key)
  {
    assert (xs + [x])[..|xs|] == xs;
  }

  lemma {:induction false} PlaceIsStable<T>(xs: seq<T>, x: T, k: Key, key: T -> Key)
    ensures OfKey(Place(xs, x, key), k, key) == if key(x) == k then OfKey(xs, k, key) + [x] else OfKey(xs, k, key)
  {
    if xs == [] || !KeyLess(key(x), key(xs[|xs| - 1])) {
      OfKeyAppend(xs, x, k, key);
    } else {
      var front, last := xs[..|xs| - 1], xs[|xs| - 1];
      PlaceIsStable(front, x, k, key);
      OfKeyAppend(Place(front, x, key), last, k, key);
      OfKeyAppend(front, last, k, key);
      assert xs == front + [last];
    }
  }

  /** Sorting keeps the elements of one key in the order they came in. */
  lemma {:induction false} SortIsStable<T>(xs: seq<T>, k: Key, key: T -> Key)
    ensures OfKey(Sort(xs, key), k, key) == OfKey(xs, k, key)
  {
    if xs != [] {
      SortIsStable(xs[..|xs| - 1], k, key);
      PlaceIsStable(Sort(xs[..|xs| - 1], key), xs[|xs| - 1], k, key);
    }
  }

  /** Two sequences that agree position by position on their keys are sorted by the same moves. */
  ghost predicate SameKeys<T>(xs: seq<T>, ys: seq<T>, key: T -> Key) {
    |xs| == |ys| && forall i :: 0 <= i < |xs| ==> key(xs[i]) == key(ys[i])
  }

  /** The rearrangement `Sort` performs, as the sequence of source positions. */
  function Moves<T>(xs: seq<T>, key: T -> Key): (ps: seq<nat>)
    ensures |ps| == |xs| && forall i :: 0 <= i < |ps| ==> ps[i] < |xs|
  {
    if xs == [] then [] else MovePlace(xs, Moves(xs[..|xs| - 1], key), key)
  }

  function MovePlace<T>(xs: seq<T>, ps: seq<nat>, key: T -> Key): (qs: seq<nat>)
    requires xs != [] && forall i :: 0 <= i < |ps| ==> ps[i] < |xs|
    ensures |qs| == |ps| + 1 && forall i :: 0 <= i < |qs| ==> qs[i] < |xs|
  {
    if ps == [] || !KeyLess(key(xs[|xs| - 1]), key(xs[ps[|ps| - 1]])) then ps + [|xs| - 1]
    else MovePlace(xs, ps[..|ps| - 1], key) + [ps[|ps| - 1]]
  }

  function Pick<T>(xs: seq<T>, ps: seq<nat>): (ys: seq<T>)
    requires forall i :: 0 <= i < |ps| ==> ps[i] < |xs|
    ensures |ys| == |ps| && forall i :: 0 <= i < |ps| ==> ys[i] == xs[ps[i]]
  {
    seq(|ps|, i requires 0 <= i < |ps| => xs[ps[i]])
  }

  lemma {:induction false} MovePlaceIsPlace<T>(xs: seq<T>, ps: seq<nat>, key: T -> Key)
    requires xs != [] && forall i :: 0 <= i < |ps| ==> ps[i] < |xs|
    ensures Place(Pick(xs, ps), xs[|xs| - 1], key) == Pick(xs, MovePlace(xs, ps, key))
  {
    if ps == [] || !KeyLess(key(xs[|xs| - 1]), key(xs[ps[|ps| - 1]])) {
    } else {
      MovePlaceIsPlace(xs, ps[..|ps| - 1], key);
      assert Pick(xs, ps)[..|ps| - 1] == Pick(xs, ps[..|ps| - 1]);
    }
  }

  lemma {:induction false} MovesAreSort<T>(xs: seq<T>, key: T -> Key)
    ensures Sort(xs, key) == Pick(xs, Moves(xs, key))
  {
    if xs == [] {
    } else {
      var front := xs[..|xs| - 1];
      MovesAreSort(front, key);
      MovePlaceIsPlace(xs, Moves(front, key), key);
      assert Pick(front, Moves(front, key)) == Pick(xs, Moves(front, key));
    }
  }

  lemma {:induction false} MovePlaceReadsKeys<T>(xs: seq<T>, ys: seq<T>, ps: seq<nat>, key: T -> Key)
    requires SameKeys(xs, ys, key) && xs != [] && forall i :: 0 <= i < |ps| ==> ps[i] < |xs|
    ensures MovePlace(xs, ps, key) == MovePlace(ys, ps, key)
  {
    if ps == [] {
    } else {
      MovePlaceReadsKeys(xs, ys, ps[..|ps| - 1], key);
    }
  }

  /** The rearrangement depends on the keys alone. */
  lemma {:induction false} MovesReadKeys<T>(xs: seq<T>, ys: seq<T>, key: T -> Key)
    requires SameKeys(xs, ys, key)
    ensures Moves(xs, key) == Moves(ys, key)
  {
    if xs == [] {
    } else {
      MovesReadKeys(xs[..|xs| - 1], ys[..|ys| - 1], key);
      MovePlaceReadsKeys(xs, ys, Moves(xs[..|xs| - 1], key), key);
    }
  }
}
