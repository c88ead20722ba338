/** Sorted sets of integers: how the program turns a `Set` of times or ids into a timeline. */
module AscendingInts {
  ghost predicate StrictlyAscending(xs: seq<int>) {
    forall i, j :: 0 <= i < j < |xs| ==> xs[i] < xs[j]
  }

  /** Adds `x` at its place unless it is already there. */
  function Insert(xs: seq<int>, x: int): seq<int> {
    if xs == [] || xs[|xs| - 1] < x then xs + [x]
    else if xs[|xs| - 1] == x then xs
    else Insert(xs[..|xs| - 1], x) + [xs[|xs| - 1]]
  }

  lemma {:induction false} InsertKeeps(xs: seq<int>, x: int)
    requires StrictlyAscending(xs)
    ensures StrictlyAscending(Insert(xs, x))
    ensures forall y :: y in Insert(xs, x) <==> y == x || y in xs
  {
    if xs == [] || xs[|xs| - 1] < x {
    } else if xs[|xs| - 1] == x {
    } else {
      var front, last := xs[..|xs| - 1], xs[|xs| - 1];
      assert xs == front + [last];
      InsertKeeps(front, x);
      forall y | y in Insert(front, x) ensures y < last {
        if y != x {
          var i :| 0 <= i < |front| && front[i] == y;
          assert xs[i] == y;
        }
      }
      var placed := Insert(front, x);
      forall i, j | 0 <= i < j < |placed| + 1
        ensures (placed + [last])[i] < (placed + [last])[j]
      {
        if j == |placed| { assert placed[i] in placed; }
      }
    }
  }

  /** The distinct elements of `xs` in ascending order. */
  function Collect(xs: seq<int>): seq<int> {
    if xs == [] then [] else Insert(Collect(xs[..|xs| - 1]), xs[|xs| - 1])
  }

  lemma {:induction false} CollectKeeps(xs: seq<int>)
    ensures StrictlyAscending(Collect(xs))
    ensures forall y :: y in Collect(xs) <==> y in xs
  {
    if xs == [] {
    } else {
      CollectKeeps(xs[..|xs| - 1]);
      InsertKeeps(Collect(xs[..|xs| - 1]), xs[|xs| - 1]);
      assert xs == xs[..|xs| - 1] + [xs[|xs| - 1]];
    }
  }

  /** A set of integers has one ascending listing. */
  lemma {:induction false} ListingUnique(xs: seq<int>, ys: seq<int>)
    requires StrictlyAscending(xs) && StrictlyAscending(ys)
    requires forall y :: y in xs <==> y in ys
    ensures xs == ys
  {
    if ys != [] { assert ys[0] in ys; }
    if xs == [] {
    } else {
      assert xs[0] in xs;
      assert xs[0] == ys[0];
      forall y ensures y in xs[1..] <==> y in ys[1..] {
        if y in xs[1..] {
          assert y in xs;
          var k :| 0 <= k < |xs[1..]| && xs[1..][k] == y;
          assert xs[k + 1] == y;
          assert y in ys && y != ys[0];
        }
        if y in ys[1..] {
          assert y in ys;
          var k :| 0 <= k < |ys[1..]| && ys[1..][k] == y;
          assert ys[k + 1] == y;
          assert y in xs && y != xs[0];
        }
      }
      ListingUnique(xs[1..], ys[1..]);
    }
  }

  /** How many leading elements are at most `t`. */
  function CountThrough(xs: seq<int>, t: int): (k: nat)
    ensures k <= |xs|
  {
    if xs == [] || xs[0] > t then 0 else 1 + CountThrough(xs[1..], t)
  }

  lemma {:induction false} CountThroughSplits(xs: seq<int>, t: int)
    requires StrictlyAscending(xs)
    ensures var k := CountThrough(xs, t);
            (forall i :: 0 <= i < k ==> xs[i] <= t) && (forall i :: k <= i < |xs| ==> xs[i] > t)
  {
    if xs == [] || xs[0] > t {
    } else {
      CountThroughSplits(xs[1..], t);
      var k := CountThrough(xs[1..], t);
      forall i | 0 <= i < k + 1 ensures xs[i] <= t {
        if i > 0 { assert xs[i] == xs[1..][i - 1]; }
      }
      forall i | k + 1 <= i < |xs| ensures xs[i] > t {
        assert xs[i] == xs[1..][i - 1];
      }
    }
  }
}
