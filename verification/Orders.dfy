/** The orders that the portal sorts by, and the one arrangement each of them allows.

    Every comparison function of the portal is lexicographic over a few columns.  A column value is
    an `Atom` and a row's `Key` is the list of its column values, so one strict total order serves
    all of them. */
module Orders {

  /** A column value: numbers ascending, texts in code-point order, scores descending. */
  datatype Atom = Num(n: int) | Text(s: string) | Down(r: real)

  type Key = seq<Atom>

  predicate TextLess(a: string, b: string) {
    if b == "" then false
    else if a == "" then true
    else if a[0] != b[0] then a[0] < b[0]
    else TextLess(a[1..], b[1..])
  }

  predicate AtomLess(a: Atom, b: Atom) {
    match (a, b)
    case (Num(x), Num(y)) => x < y
    case (Text(x), Text(y)) => TextLess(x, y)
    case (Down(x), Down(y)) => x > y
    case (Num(_), _) => true
    case (Text(_), Down(_)) => true
    case _ => false
  }

  predicate KeyLess(a: Key, b: Key) {
    if b == [] then false
    else if a == [] then true
    else if a[0] != b[0] then AtomLess(a[0], b[0])
    else KeyLess(a[1..], b[1..])
  }

  /** The order compares column by column. */
  lemma KeyLessStep(x: Atom, xs: Key, y: Atom, ys: Key)
    ensures KeyLess([x] + xs, [y] + ys) <==> if x == y then KeyLess(xs, ys) else AtomLess(x, y)
  {
    assert ([x] + xs)[1..] == xs && ([y] + ys)[1..] == ys;
  }

  lemma {:induction false} TextLessTotal(a: string, b: string)
    ensures !(TextLess(a, b) && TextLess(b, a))
    ensures TextLess(a, b) || TextLess(b, a) <==> a != b
  {
    if a != "" && b != "" && a[0] == b[0] {
      TextLessTotal(a[1..], b[1..]);
      assert a == [a[0]] + a[1..] && b == [b[0]] + b[1..];
    }
  }

  lemma {:induction false} TextLessTransitive(a: string, b: string, c: string)
    requires TextLess(a, b) && TextLess(b, c)
    ensures TextLess(a, c)
  {
    if a != "" && a[0] == b[0] == c[0] {
      TextLessTransitive(a[1..], b[1..], c[1..]);
    }
  }

  lemma {:induction false} KeyLessTotal(a: Key, b: Key)
    ensures !(KeyLess(a, b) && KeyLess(b, a))
    ensures KeyLess(a, b) || KeyLess(b, a) <==> a != b
  {
    if a != [] && b != [] {
      if a[0] == b[0] {
        KeyLessTotal(a[1..], b[1..]);
        assert a == [a[0]] + a[1..] && b == [b[0]] + b[1..];
      } else if a[0].Text? && b[0].Text? {
        TextLessTotal(a[0].s, b[0].s);
      }
    }
  }

  lemma {:induction false} KeyLessTransitive(a: Key, b: Key, c: Key)
    requires KeyLess(a, b) && KeyLess(b, c)
    ensures KeyLess(a, c)
  {
    if a != [] {
      if a[0] == b[0] == c[0] {
        KeyLessTransitive(a[1..], b[1..], c[1..]);
      } else if a[0] != b[0] && b[0] != c[0] && a[0].Text? && b[0].Text? && c[0].Text? {
        TextLessTransitive(a[0].s, b[0].s, c[0].s);
        TextLessTotal(a[0].s, c[0].s);
      }
    }
  }

  /** The texts agree on their first `k` characters, where the first ends or has the smaller character. */
  predicate SmallerAt(a: string, b: string, k: nat) {
    k <= |a| && k < |b| && a[..k] == b[..k] && (k == |a| || a[k] < b[k])
  }

  /** One text comes before another if it is a proper beginning of the other, or has the smaller character
      at the first place where they differ. */
  ghost predicate TextBefore(a: string, b: string) {
    exists k: nat :: SmallerAt(a, b, k)
  }

  lemma {:induction false} TextLessIff(a: string, b: string)
    ensures TextLess(a, b) <==> TextBefore(a, b)
  {
    if a == "" || b == "" || a[0] != b[0] {
      FirstCharDecides(a, b);
    } else {
      TextLessIff(a[1..], b[1..]);
      RestDecides(a[0], a[1..], b[1..]);
      assert a == [a[0]] + a[1..] && b == [a[0]] + b[1..];
    }
  }

  lemma FirstCharDecides(a: string, b: string)
    requires a == "" || b == "" || a[0] != b[0]
    ensures TextLess(a, b) <==> TextBefore(a, b)
  {
    if TextLess(a, b) {
      assert SmallerAt(a, b, 0);
    }
    forall k | 0 < k <= |a| && k <= |b|
      ensures a[..k] != b[..k]
    {
      assert a[..k][0] == a[0] && b[..k][0] == b[0];
    }
  }

  /** Where the first characters agree, the rest decides. */
  lemma RestDecides(c: char, x: string, y: string)
    ensures TextBefore([c] + x, [c] + y) <==> TextBefore(x, y)
  {
    var (a, b) := ([c] + x, [c] + y);
    if k: nat :| SmallerAt(x, y, k) {
      SmallerAtNext(c, x, y, k);
    }
    if k: nat :| SmallerAt(a, b, k) {
      assert k > 0;
      SmallerAtNext(c, x, y, k - 1);
    }
  }

  lemma SmallerAtNext(c: char, x: string, y: string, k: nat)
    ensures SmallerAt([c] + x, [c] + y, k + 1) <==> SmallerAt(x, y, k)
  {
    if k <= |x| && k < |y| {
      var (a, b) := ([c] + x, [c] + y);
      assert a[..k + 1] == [c] + x[..k] && b[..k + 1] == [c] + y[..k];
      assert ([c] + x[..k])[1..] == x[..k] && ([c] + y[..k])[1..] == y[..k];
    }
  }

  /** Rows sorted by one text column ascend in it. */
  lemma SortedTextsAscend<V>(xs: seq<V>, key: V -> Key, text: V -> string)
    requires Sorted(xs, key) && forall i :: 0 <= i < |xs| ==> key(xs[i]) == [Text(text(xs[i]))]
    requires forall i, j :: 0 <= i < j < |xs| ==> text(xs[i]) != text(xs[j])
    ensures forall i, j :: 0 <= i < j < |xs| ==> TextBefore(text(xs[i]), text(xs[j]))
  {
    forall i, j | 0 <= i < j < |xs|
      ensures TextBefore(text(xs[i]), text(xs[j]))
    {
      var (x, y) := (Text(text(xs[i])), Text(text(xs[j])));
      assert [x] == [x] + [] && [y] == [y] + [];
      KeyLessStep(y, [], x, []);
      TextLessTotal(x.s, y.s);
      TextLessIff(x.s, y.s);
    }
  }

  /** Not out of order: the guarantee that `sort.Slice` leaves behind. */
  ghost predicate Sorted<V>(xs: seq<V>, key: V -> Key) {
    forall i, j :: 0 <= i < j < |xs| ==> !KeyLess(key(xs[j]), key(xs[i]))
  }

  /** Rows with equal keys are the same row. */
  ghost predicate Separates<V(!new)>(s: iset<V>, key: V -> Key) {
    forall a, b :: a in s && b in s && key(a) == key(b) ==> a == b
  }

  ghost function Members<V(!new)>(xs: seq<V>): iset<V> {
    iset x | x in xs
  }

  /** The head of a sorted list is determined by what the list contains. */
  lemma SameHead<V(!new)>(xs: seq<V>, ys: seq<V>, key: V -> Key)
    requires Sorted(xs, key) && Sorted(ys, key)
    requires multiset(xs) == multiset(ys) && xs != []
    requires Separates(Members(xs), key)
    ensures ys != [] && xs[0] == ys[0]
  {
    assert ys != [] by { assert |multiset(xs)| == |xs| && |multiset(ys)| == |ys|; }
    assert xs[0] in multiset(ys) && ys[0] in multiset(xs);
    assert xs[0] in ys && ys[0] in xs;
    KeyLessTotal(key(xs[0]), key(ys[0]));
  }

  lemma TailMultiset<V(!new)>(xs: seq<V>)
    requires xs != []
    ensures multiset(xs[1..]) == multiset(xs) - multiset{xs[0]}
  {
    assert xs == [xs[0]] + xs[1..];
  }

  /** A sorted arrangement is unique, whatever order the rows were collected in. */
  lemma {:induction false} SortedUnique<V(!new)>(xs: seq<V>, ys: seq<V>, key: V -> Key)
    requires Sorted(xs, key) && Sorted(ys, key)
    requires multiset(xs) == multiset(ys)
    requires Separates(Members(xs), key)
    ensures xs == ys
  {
    hide KeyLess, Sorted, Separates, Members;
    if xs != [] {
      SameHead(xs, ys, key);
      TailMultiset(xs);
      TailMultiset(ys);
      SortedTail(xs, key);
      SortedTail(ys, key);
      SortedUnique(xs[1..], ys[1..], key);
      assert xs == [xs[0]] + xs[1..] && ys == [ys[0]] + ys[1..];
    } else {
      assert |multiset(ys)| == |ys|;
    }
  }

  lemma SortedTail<V(!new)>(xs: seq<V>, key: V -> Key)
    requires Sorted(xs, key) && xs != []
    ensures Sorted(xs[1..], key)
    ensures Separates(Members(xs), key) ==> Separates(Members(xs[1..]), key)
  {
    hide KeyLess;
    assert forall x :: x in xs[1..] ==> x in xs;
  }

  /** Stands for `sort.Slice` with the comparison "key of left before key of right". */
  method SortSlice<V>(xs: seq<V>, key: V -> Key) returns (out: seq<V>)
    ensures multiset(out) == multiset(xs) && Sorted(out, key)
  {
    out := [];
    for n := 0 to |xs|
      invariant multiset(out) == multiset(xs[..n]) && Sorted(out, key)
    {
      var at := Slot(out, xs[n], key);
      InsertKeepsSorted(out, xs[n], at, key);
      assert xs[..n + 1] == xs[..n] + [xs[n]];
      out := out[..at] + [xs[n]] + out[at..];
    }
    assert xs[..|xs|] == xs;
  }

  lemma InsertKeepsSorted<V>(out: seq<V>, x: V, at: nat, key: V -> Key)
    requires Sorted(out, key) && at <= |out|
    requires forall i :: 0 <= i < at ==> !KeyLess(key(x), key(out[i]))
    requires forall i :: at <= i < |out| ==> !KeyLess(key(out[i]), key(x))
    ensures Sorted(out[..at] + [x] + out[at..], key)
    ensures multiset(out[..at] + [x] + out[at..]) == multiset(out) + multiset{x}
  {
    var wider := out[..at] + [x] + out[at..];
    assert out == out[..at] + out[at..];
    forall i, j | 0 <= i < j < |wider|
      ensures !KeyLess(key(wider[j]), key(wider[i]))
    {
      if i < at && j > at {
        assert wider[i] == out[i] && wider[j] == out[j - 1];
      } else if i > at {
        assert wider[i] == out[i - 1] && wider[j] == out[j - 1];
      }
    }
  }

  method Slot<V>(out: seq<V>, x: V, key: V -> Key) returns (at: nat)
    requires Sorted(out, key)
    ensures at <= |out|
    ensures forall i :: 0 <= i < at ==> !KeyLess(key(x), key(out[i]))
    ensures forall i :: at <= i < |out| ==> !KeyLess(key(out[i]), key(x))
  {
    at := 0;
    while at < |out| && !KeyLess(key(x), key(out[at]))
      invariant at <= |out|
      invariant forall i :: 0 <= i < at ==> !KeyLess(key(x), key(out[i]))
    {
      at := at + 1;
    }
    SlotIsBetween(out, x, at, key);
  }

  // ---- The sorted enumeration of a finite set ----

  lemma {:induction false} LeastExists<V(!new)>(s: set<V>, key: V -> Key) returns (least: V)
    requires s != {}
    ensures least in s && forall y :: y in s ==> !KeyLess(key(y), key(least))
  {
    var x :| x in s;
    if s == {x} {
      least := x;
      KeyLessTotal(key(x), key(x));
    } else {
      var z := LeastExists(s - {x}, key);
      assert z in s;
      KeyLessTotal(key(x), key(z));
      KeyLessTotal(key(x), key(x));
      least := if KeyLess(key(x), key(z)) then x else z;
      forall y | y in s
        ensures !KeyLess(key(y), key(least))
      {
        if y != x && least == x && KeyLess(key(y), key(x)) {
          KeyLessTransitive(key(y), key(x), key(z));
        }
      }
    }
  }

  /** `out` lists every member of `s` once. */
  ghost predicate Enumerates<V(!new)>(out: seq<V>, s: set<V>) {
    && (forall i :: 0 <= i < |out| ==> out[i] in s)
    && (forall x :: x in s ==> x in out)
    && (forall i, j :: 0 <= i < j < |out| ==> out[i] != out[j])
  }

  lemma LeastFirst<V(!new)>(x: V, rest: seq<V>, s: set<V>, key: V -> Key)
    requires Enumerates(rest, s) && Sorted(rest, key)
    requires x !in s && forall y :: y in s ==> !KeyLess(key(y), key(x))
    ensures Enumerates([x] + rest, {x} + s) && Sorted([x] + rest, key)
  {
  }

  lemma EnumerationTail<V(!new)>(xs: seq<V>, s: set<V>)
    requires Enumerates(xs, s) && xs != []
    ensures Enumerates(xs[1..], s - {xs[0]})
  {
    forall x | x in s - {xs[0]}
      ensures x in xs[1..]
    {
      assert x in xs;
    }
  }

  lemma {:induction false} EnumerationMultiset<V(!new)>(xs: seq<V>, s: set<V>)
    requires Enumerates(xs, s)
    ensures multiset(xs) == multiset(s) && |xs| == |s|
  {
    if xs == [] {
      assert s == {} by {
        assert forall x :: x !in s;
      }
    } else {
      EnumerationTail(xs, s);
      var rest := s - {xs[0]};
      EnumerationMultiset(xs[1..], rest);
      TailMultiset(xs);
      SetWithout(s, xs[0]);
    }
  }

  lemma SetWithout<V>(s: set<V>, x: V)
    requires x in s
    ensures multiset(s) == multiset(s - {x}) + multiset{x} && |s| == |s - {x}| + 1
  {
    assert s == (s - {x}) + {x};
  }

  /** The rows of `s` in the order of their keys: what listing and sorting a store table yields. */
  ghost function Arrange<V(!new)>(s: set<V>, key: V -> Key): (out: seq<V>)
    ensures Enumerates(out, s) && Sorted(out, key)
    decreases |s|
  {
    if s == {} then []
    else
      assert exists x :: x in s && forall y :: y in s ==> !KeyLess(key(y), key(x)) by {
        var least := LeastExists(s, key);
      }
      var x :| x in s && forall y :: y in s ==> !KeyLess(key(y), key(x));
      var rest := Arrange(s - {x}, key);
      LeastFirst(x, rest, s - {x}, key);
      assert s == {x} + (s - {x});
      [x] + rest
  }

  /** Sorting any enumeration of `s` gives `Arrange(s, key)`. */
  lemma ArrangeUnique<V(!new)>(xs: seq<V>, listed: seq<V>, s: set<V>, key: V -> Key)
    requires Enumerates(listed, s)
    requires multiset(xs) == multiset(listed) && Sorted(xs, key)
    requires forall a, b :: a in s && b in s && key(a) == key(b) ==> a == b
    ensures xs == Arrange(s, key)
  {
    EnumerationMultiset(listed, s);
    EnumerationMultiset(Arrange(s, key), s);
    forall x | x in xs
      ensures x in s
    {
      assert x in multiset(xs);
    }
    SortedUnique(xs, Arrange(s, key), key);
  }

  // ---- The sorted arrangement of a list ----

  ghost function SlotOf<V>(out: seq<V>, x: V, key: V -> Key): (at: nat)
    ensures at <= |out|
    ensures forall i :: 0 <= i < at ==> !KeyLess(key(x), key(out[i]))
    ensures at < |out| ==> KeyLess(key(x), key(out[at]))
  {
    if out == [] || KeyLess(key(x), key(out[0])) then 0 else 1 + SlotOf(out[1..], x, key)
  }

  ghost function Inserted<V>(out: seq<V>, x: V, key: V -> Key): (wider: seq<V>)
    requires Sorted(out, key)
    ensures multiset(wider) == multiset(out) + multiset{x} && Sorted(wider, key)
  {
    var at := SlotOf(out, x, key);
    SlotIsBetween(out, x, at, key);
    InsertKeepsSorted(out, x, at, key);
    out[..at] + [x] + out[at..]
  }

  /** The list in the order of its keys. */
  ghost function Rearranged<V>(xs: seq<V>, key: V -> Key): (out: seq<V>)
    ensures multiset(out) == multiset(xs) && Sorted(out, key)
  {
    if xs == [] then []
    else
      assert xs == xs[..|xs| - 1] + [xs[|xs| - 1]];
      Inserted(Rearranged(xs[..|xs| - 1], key), xs[|xs| - 1], key)
  }

  lemma SlotIsBetween<V>(out: seq<V>, x: V, at: nat, key: V -> Key)
    requires Sorted(out, key) && at <= |out|
    requires at < |out| ==> KeyLess(key(x), key(out[at]))
    ensures forall i :: at <= i < |out| ==> !KeyLess(key(out[i]), key(x))
  {
    forall i | at <= i < |out|
      ensures !KeyLess(key(out[i]), key(x))
    {
      KeyLessTotal(key(out[i]), key(out[at]));
      if KeyLess(key(out[i]), key(x)) {
        KeyLessTransitive(key(out[i]), key(x), key(out[at]));
        assert false;
      }
    }
  }
}
