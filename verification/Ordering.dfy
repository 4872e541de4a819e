/** Code-point order on text and sorting by a text key, as `sorted(..., key=...)` uses them. */
module Ordering {

  predicate TextLeq(a: string, b: string) {
    || a == []
    || (b != [] && (a[0] < b[0] || (a[0] == b[0] && TextLeq(a[1..], b[1..]))))
  }

  lemma {:induction false} TextTotal(a: string, b: string)
    ensures TextLeq(a, b) || TextLeq(b, a)
  {
    if a != [] && b != [] && a[0] == b[0] {
      TextTotal(a[1..], b[1..]);
    }
  }

  lemma {:induction false} TextAntisymmetric(a: string, b: string)
    requires TextLeq(a, b) && TextLeq(b, a)
    ensures a == b
  {
    if a != [] && b != [] {
      TextAntisymmetric(a[1..], b[1..]);
      assert a == [a[0]] + a[1..] && b == [b[0]] + b[1..];
    }
  }

  lemma {:induction false} TextTransitive(a: string, b: string, c: string)
    requires TextLeq(a, b) && TextLeq(b, c)
    ensures TextLeq(a, c)
  {
    if a != [] && a[0] == b[0] && b[0] == c[0] {
      TextTransitive(a[1..], b[1..], c[1..]);
    }
  }

  ghost predicate Sorted<T(!new)>(key: T -> string, xs: seq<T>) {
    forall i, j :: 0 <= i < j < |xs| ==> TextLeq(key(xs[i]), key(xs[j]))
  }

  ghost predicate DistinctKeys<T(!new)>(key: T -> string, xs: seq<T>) {
    forall i, j :: 0 <= i < j < |xs| ==> key(xs[i]) != key(xs[j])
  }

  function Insert<T(!new)>(key: T -> string, x: T, xs: seq<T>): (r: seq<T>)
    ensures multiset(r) == multiset(xs) + multiset{x}
  {
    if xs == [] || TextLeq(key(x), key(xs[0])) then
      assert multiset([x] + xs) == multiset(xs) + multiset{x};
      [x] + xs
    else
      assert xs == [xs[0]] + xs[1..];
      [xs[0]] + Insert(key, x, xs[1..])
  }

  function SortBy<T(!new)>(key: T -> string, xs: seq<T>): (r: seq<T>)
    ensures multiset(r) == multiset(xs)
    ensures |r| == |xs|
  {
    if xs == [] then []
    else
      assert xs == [xs[0]] + xs[1..];
      var r := Insert(key, xs[0], SortBy(key, xs[1..]));
      assert |multiset(r)| == |multiset(xs)|;
      r
  }

  lemma {:induction false} InsertSorted<T(!new)>(key: T -> string, x: T, xs: seq<T>)
    requires Sorted(key, xs)
    ensures Sorted(key, Insert(key, x, xs))
  {
    if xs == [] {
    } else if TextLeq(key(x), key(xs[0])) {
      forall j | 0 <= j < |xs| ensures TextLeq(key(x), key(xs[j])) {
        if j > 0 { TextTransitive(key(x), key(xs[0]), key(xs[j])); }
      }
    } else {
      TextTotal(key(x), key(xs[0]));
      InsertSorted(key, x, xs[1..]);
      var rest := Insert(key, x, xs[1..]);
      forall j | 0 <= j < |rest| ensures TextLeq(key(xs[0]), key(rest[j])) {
        assert rest[j] in multiset(rest);
        if rest[j] != x {
          assert rest[j] in multiset(xs[1..]) && rest[j] in xs[1..];
        }
      }
    }
  }

  lemma {:induction false} SortSorted<T(!new)>(key: T -> string, xs: seq<T>)
    ensures Sorted(key, SortBy(key, xs))
  {
    if xs != [] {
      SortSorted(key, xs[1..]);
      InsertSorted(key, xs[0], SortBy(key, xs[1..]));
    }
  }

  lemma SortedHeadUnique<T(!new)>(key: T -> string, xs: seq<T>, ys: seq<T>)
    requires xs != [] && ys != []
    requires Sorted(key, xs) && Sorted(key, ys)
    requires DistinctKeys(key, xs)
    requires xs[0] in ys && ys[0] in xs
    ensures xs[0] == ys[0]
  {
    var i :| 0 <= i < |ys| && ys[i] == xs[0];
    var j :| 0 <= j < |xs| && xs[j] == ys[0];
    if i > 0 && j > 0 {
      assert TextLeq(key(ys[0]), key(ys[i])) && TextLeq(key(xs[0]), key(xs[j]));
      TextAntisymmetric(key(xs[0]), key(ys[0]));
      assert false;
    }
  }

  lemma TailMultiset<T>(xs: seq<T>)
    requires xs != []
    ensures multiset(xs[1..]) == multiset(xs) - multiset{xs[0]}
  {
    assert xs == [xs[0]] + xs[1..];
  }

  /** With distinct keys there is only one sorted arrangement. */
  lemma {:induction false} SortedUnique<T(!new)>(key: T -> string, xs: seq<T>, ys: seq<T>)
    requires Sorted(key, xs) && Sorted(key, ys)
    requires DistinctKeys(key, xs)
    requires multiset(xs) == multiset(ys)
    ensures xs == ys
  {
    assert |xs| == |multiset(xs)| == |multiset(ys)| == |ys|;
    if xs != [] {
      assert xs[0] in ys by { assert xs[0] in multiset(ys); }
      assert ys[0] in xs by { assert ys[0] in multiset(xs); }
      SortedHeadUnique(key, xs, ys);
      TailMultiset(xs);
      TailMultiset(ys);
      SortedUnique(key, xs[1..], ys[1..]);
      assert xs == [xs[0]] + xs[1..] && ys == [ys[0]] + ys[1..];
    }
  }

  /** Sorting forgets the order in which distinct-keyed items were listed. */
  lemma SortIgnoresOrder<T(!new)>(key: T -> string, xs: seq<T>, ys: seq<T>)
    requires multiset(xs) == multiset(ys)
    requires DistinctKeys(key, SortBy(key, xs))
    ensures SortBy(key, xs) == SortBy(key, ys)
  {
    SortSorted(key, xs);
    SortSorted(key, ys);
    SortedUnique(key, SortBy(key, xs), SortBy(key, ys));
  }
}
