/** Sets of names and their sorted listing. */
module TextSets {
  import opened Ordering

  function Names(s: seq<string>): set<string> {
    set n | n in s
  }

  ghost predicate Distinct(s: seq<string>) {
    forall i, j :: 0 <= i < j < |s| ==> s[i] != s[j]
  }

  lemma PrefixNames(s: seq<string>, n: string)
    ensures Names(s + [n]) == Names(s) + {n}
  {
  }

  lemma NoNames()
    ensures Names([]) == {}
  {
  }

  lemma HeadNamed(s: seq<string>)
    ensures s == [] || s[0] in Names(s)
  {
  }

  lemma ConsNames(n: string, s: seq<string>)
    ensures Names([n] + s) == {n} + Names(s)
    ensures n !in Names(s) && Distinct(s) ==> Distinct([n] + s)
  {
    var r := [n] + s;
    assert forall i :: 0 <= i < |s| ==> r[i + 1] == s[i] && s[i] in Names(s);
  }

  lemma SubsetSmaller(a: set<string>, b: set<string>)
    requires a < b
    ensures |a| < |b|
  {
    assert b == a + (b - a);
  }

  lemma {:induction false} DistinctFits(s: seq<string>, pool: set<string>)
    requires Distinct(s) && Names(s) <= pool
    ensures |s| <= |pool|
  {
    if s != [] {
      var front, last := s[..|s| - 1], s[|s| - 1];
      assert last in Names(s);
      assert Names(front) <= pool - {last};
      DistinctFits(front, pool - {last});
    }
  }

  lemma {:induction false} LeastExists(s: set<string>)
    requires s != {}
    ensures exists m :: m in s && forall n :: n in s ==> TextLeq(m, n)
  {
    var x :| x in s;
    TextTotal(x, x);
    if s == {x} {
    } else {
      LeastExists(s - {x});
      var m :| m in s - {x} && forall n :: n in s - {x} ==> TextLeq(m, n);
      TextTotal(x, m);
      if TextLeq(x, m) {
        forall n | n in s ensures TextLeq(x, n) {
          if n != x { TextTransitive(x, m, n); }
        }
      } else {
        assert m in s && forall n :: n in s ==> TextLeq(m, n);
      }
    }
  }

  lemma LeastUnique(s: set<string>)
    ensures forall a, b | a in s && b in s && (forall n :: n in s ==> TextLeq(a, n))
            && (forall n :: n in s ==> TextLeq(b, n)) ::
              a == b
  {
    forall a, b | a in s && b in s && (forall n :: n in s ==> TextLeq(a, n)) && (forall n :: n in s ==> TextLeq(b, n))
      ensures a == b
    {
      TextAntisymmetric(a, b);
    }
  }

  function SortedNames(s: set<string>): (r: seq<string>)
    ensures Names(r) == s && Distinct(r)
  {
    if s == {} then []
    else
      LeastExists(s);
      LeastUnique(s);
      var m :| m in s && forall n :: n in s ==> TextLeq(m, n);
      var rest := SortedNames(s - {m});
      ConsNames(m, rest);
      [m] + rest
  }

  lemma {:induction false} SortedNamesSorted(s: set<string>)
    ensures Sorted((n: string) => n, SortedNames(s))
  {
    if s != {} {
      var r := SortedNames(s);
      SortedNamesSorted(s - {r[0]});
      forall j | 0 < j < |r| ensures TextLeq(r[0], r[j]) {
        assert r[j] in Names(r);
      }
    }
  }

  lemma OneName(n: string)
    ensures SortedNames({n}) == [n]
  {
    var r := SortedNames({n});
    assert n in Names(r);
    forall i | 0 <= i < |r| ensures r[i] == n { assert r[i] in Names(r); }
  }
}
