/** Counting the members of a list that pass a test. */
module Counting {

  function Count<T>(xs: seq<T>, test: T -> bool): nat {
    if xs == [] then 0
    else Count(xs[..|xs| - 1], test) + if test(xs[|xs| - 1]) then 1 else 0
  }

  /** The positions that pass the test. */
  ghost function Passing<T>(xs: seq<T>, test: T -> bool): set<int> {
    set i | 0 <= i < |xs| && test(xs[i])
  }

  lemma {:induction false} CountCounts<T>(xs: seq<T>, test: T -> bool)
    ensures Count(xs, test) == |Passing(xs, test)|
  {
    if xs == [] {
      assert Passing(xs, test) == {};
    } else {
      var n := |xs| - 1;
      CountCounts(xs[..n], test);
      assert Passing(xs, test) == if test(xs[n]) then Passing(xs[..n], test) + {n} else Passing(xs[..n], test);
    }
  }

  lemma {:induction false} CountAppend<T>(xs: seq<T>, ys: seq<T>, test: T -> bool)
    ensures Count(xs + ys, test) == Count(xs, test) + Count(ys, test)
  {
    if ys == [] {
      assert xs + ys == xs;
    } else {
      var n := |ys| - 1;
      assert (xs + ys)[..|xs + ys| - 1] == xs + ys[..n];
      CountAppend(xs, ys[..n], test);
    }
  }

  /** Removing one occurrence. */
  lemma CountWithout<T>(ys: seq<T>, i: nat, test: T -> bool)
    requires i < |ys|
    ensures Count(ys, test) == Count(ys[..i] + ys[i + 1..], test) + if test(ys[i]) then 1 else 0
  {
    CountAppend(ys[..i + 1], ys[i + 1..], test);
    CountAppend(ys[..i], ys[i + 1..], test);
    assert ys == ys[..i + 1] + ys[i + 1..];
    assert ys[..i + 1][..i] == ys[..i];
  }

  /** The count does not depend on the order of the list. */
  lemma {:induction false} CountUnordered<T>(xs: seq<T>, ys: seq<T>, test: T -> bool)
    requires multiset(xs) == multiset(ys)
    ensures Count(xs, test) == Count(ys, test)
    decreases |xs|
  {
    assert |multiset(xs)| == |xs| && |multiset(ys)| == |ys|;
    if xs != [] {
      var n := |xs| - 1;
      assert xs == xs[..n] + [xs[n]];
      assert xs[n] in multiset(ys);
      var i :| 0 <= i < |ys| && ys[i] == xs[n];
      var rest := ys[..i] + ys[i + 1..];
      assert ys == ys[..i] + [ys[i]] + ys[i + 1..];
      assert multiset(rest) == multiset(ys) - multiset{ys[i]};
      assert multiset(xs[..n]) == multiset(xs) - multiset{xs[n]};
      CountUnordered(xs[..n], rest, test);
      CountWithout(ys, i, test);
    }
  }
}
