/** Strings in the order of the default sort: UTF-16 code unit by code unit. */
module Text {
  import opened Common

  predicate LeqUnits(a: seq<int>, b: seq<int>) {
    |a| == 0 || (|b| > 0 && (a[0] < b[0] || (a[0] == b[0] && LeqUnits(a[1..], b[1..]))))
  }

  lemma {:induction false} UnitsTotal(a: seq<int>, b: seq<int>)
    ensures LeqUnits(a, b) || LeqUnits(b, a)
  {
    if |a| > 0 && |b| > 0 && a[0] == b[0] {
      UnitsTotal(a[1..], b[1..]);
    }
  }

  lemma {:induction false} UnitsAntisymmetric(a: seq<int>, b: seq<int>)
    requires LeqUnits(a, b) && LeqUnits(b, a)
    ensures a == b
  {
    if |a| > 0 {
      UnitsAntisymmetric(a[1..], b[1..]);
      assert a == [a[0]] + a[1..] && b == [b[0]] + b[1..];
    }
  }

  lemma {:induction false} UnitsTransitive(a: seq<int>, b: seq<int>, c: seq<int>)
    requires LeqUnits(a, b) && LeqUnits(b, c)
    ensures LeqUnits(a, c)
  {
    if |a| > 0 && a[0] == b[0] && b[0] == c[0] {
      UnitsTransitive(a[1..], b[1..], c[1..]);
    }
  }

  /** One UTF-16 unit for a character of the basic plane, a surrogate pair for any other. */
  function Units(c: char): seq<int> {
    var v := c as int;
    if v < 0x1_0000 then [v] else [0xD800 + (v - 0x1_0000) / 0x400, 0xDC00 + (v - 0x1_0000) % 0x400]
  }

  function Codes(s: string): seq<int> {
    if s == "" then [] else Units(s[0]) + Codes(s[1..])
  }

  /** No character's units start another's. */
  lemma UnitsPrefixFree(c: char, d: char, more: seq<int>, rest: seq<int>)
    requires Units(c) + more == Units(d) + rest
    ensures c == d && more == rest
  {
    var left, right := Units(c) + more, Units(d) + rest;
    assert left[0] == Units(c)[0] && right[0] == Units(d)[0];
    assert |Units(c)| == |Units(d)|;
    assert |Units(c)| == 2 ==> left[1] == Units(c)[1] && right[1] == Units(d)[1];
    assert left[|Units(c)|..] == more && right[|Units(d)|..] == rest;
  }

  lemma {:induction false} CodesInjective(a: string, b: string)
    requires Codes(a) == Codes(b)
    ensures a == b
  {
    hide Units;
    UnitsNonempty(a);
    UnitsNonempty(b);
    if a != "" && b != "" {
      UnitsPrefixFree(a[0], b[0], Codes(a[1..]), Codes(b[1..]));
      CodesInjective(a[1..], b[1..]);
      assert a == [a[0]] + a[1..] && b == [b[0]] + b[1..];
    }
  }

  lemma UnitsNonempty(s: string)
    ensures s != "" ==> Codes(s) != []
  {
    assert s != "" ==> Codes(s)[0] == Units(s[0])[0];
  }

  predicate Leq(a: string, b: string) {
    LeqUnits(Codes(a), Codes(b))
  }

  lemma LeqTotal(a: string, b: string)
    ensures Leq(a, b) || Leq(b, a)
  {
    UnitsTotal(Codes(a), Codes(b));
  }

  lemma LeqAntisymmetric(a: string, b: string)
    requires Leq(a, b) && Leq(b, a)
    ensures a == b
  {
    UnitsAntisymmetric(Codes(a), Codes(b));
    CodesInjective(a, b);
  }

  lemma LeqTransitive(a: string, b: string, c: string)
    requires Leq(a, b) && Leq(b, c)
    ensures Leq(a, c)
  {
    UnitsTransitive(Codes(a), Codes(b), Codes(c));
  }

  predicate Sorted(xs: seq<string>) {
    forall i :: 0 <= i < |xs| - 1 ==> Leq(xs[i], xs[i + 1])
  }

  /** Unique and sorted, as the schemas demand of identifier lists. */
  predicate StrictlySorted(xs: seq<string>) {
    Sorted(xs) && Distinct(xs)
  }

  function Insert(x: string, xs: seq<string>): seq<string> {
    if |xs| == 0 || Leq(x, xs[0]) then [x] + xs else [xs[0]] + Insert(x, xs[1..])
  }

  function Sort(xs: seq<string>): seq<string> {
    if |xs| == 0 then [] else Insert(xs[0], Sort(xs[1..]))
  }

  lemma {:induction false} InsertSorted(x: string, xs: seq<string>)
    requires Sorted(xs)
    ensures Sorted(Insert(x, xs)) && multiset(Insert(x, xs)) == multiset{x} + multiset(xs)
    ensures |xs| > 0 ==> Insert(x, xs)[0] == x || Insert(x, xs)[0] == xs[0]
  {
    if |xs| > 0 && !Leq(x, xs[0]) {
      LeqTotal(x, xs[0]);
      assert xs == [xs[0]] + xs[1..];
      InsertSorted(x, xs[1..]);
    }
  }

  lemma {:induction false} SortSorts(xs: seq<string>)
    ensures Sorted(Sort(xs)) && multiset(Sort(xs)) == multiset(xs) && |Sort(xs)| == |xs|
  {
    if |xs| > 0 {
      SortSorts(xs[1..]);
      InsertSorted(xs[0], Sort(xs[1..]));
      assert xs == [xs[0]] + xs[1..];
      assert |multiset(Sort(xs))| == |multiset(xs)|;
    }
  }

  lemma {:induction false} FirstIsLeast(xs: seq<string>, k: nat)
    requires Sorted(xs) && k < |xs|
    ensures Leq(xs[0], xs[k])
  {
    if k == 0 {
      LeqTotal(xs[0], xs[0]);
    } else {
      FirstIsLeast(xs, k - 1);
      assert Leq(xs[k - 1], xs[k - 1 + 1]);
      LeqTransitive(xs[0], xs[k - 1], xs[k]);
    }
  }

  lemma HeadsEqual(xs: seq<string>, ys: seq<string>)
    requires Sorted(xs) && Sorted(ys) && multiset(xs) == multiset(ys) && |xs| > 0 && |ys| > 0
    ensures xs[0] == ys[0]
  {
    hide Sorted, Leq;
    assert xs[0] in multiset(ys) && ys[0] in multiset(xs);
    var i :| 0 <= i < |ys| && ys[i] == xs[0];
    var j :| 0 <= j < |xs| && xs[j] == ys[0];
    FirstIsLeast(ys, i);
    FirstIsLeast(xs, j);
    LeqAntisymmetric(xs[0], ys[0]);
  }

  lemma TailSorted(xs: seq<string>)
    requires Sorted(xs) && |xs| > 0
    ensures Sorted(xs[1..]) && multiset(xs[1..]) == multiset(xs) - multiset{xs[0]}
  {
    assert xs == [xs[0]] + xs[1..];
    var tail := xs[1..];
    forall i | 0 <= i < |tail| - 1 ensures Leq(tail[i], tail[i + 1]) {
      assert Leq(xs[i + 1], xs[i + 1 + 1]);
    }
  }

  /** A multiset has one sorted arrangement. */
  lemma {:induction false} SortedUnique(xs: seq<string>, ys: seq<string>)
    requires Sorted(xs) && Sorted(ys) && multiset(xs) == multiset(ys)
    ensures xs == ys
    decreases |xs|
  {
    hide Sorted;
    assert |multiset(xs)| == |multiset(ys)|;
    if |xs| > 0 {
      HeadsEqual(xs, ys);
      TailSorted(xs);
      TailSorted(ys);
      SortedUnique(xs[1..], ys[1..]);
      assert xs == [xs[0]] + xs[1..] && ys == [ys[0]] + ys[1..];
    }
  }

  /** Comparing a list with its sorted copy decides whether it is sorted. */
  lemma SortedIffFixed(xs: seq<string>)
    ensures Sorted(xs) <==> Sort(xs) == xs
  {
    SortSorts(xs);
    if Sorted(xs) {
      SortedUnique(xs, Sort(xs));
    }
  }

  /** Two lists sort alike exactly when one is a permutation of the other. */
  lemma SameSorted(xs: seq<string>, ys: seq<string>)
    ensures Sort(xs) == Sort(ys) <==> multiset(xs) == multiset(ys)
  {
    SortSorts(xs);
    SortSorts(ys);
    if multiset(xs) == multiset(ys) {
      SortedUnique(Sort(xs), Sort(ys));
    }
  }
}
