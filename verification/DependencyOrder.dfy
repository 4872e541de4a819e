/** The dependency graph of persona dimensions: its cycle check and its layered order. */
module DependencyOrder {
  import opened Wrappers
  import opened TextSets

  type Graph = map<string, set<string>>

  ghost predicate Closed(g: Graph) {
    forall n :: n in g ==> g[n] <= g.Keys
  }

  // Each node followed by one it depends on.
  ghost predicate Chain(g: Graph, c: seq<string>) {
    && (forall i :: 0 <= i < |c| ==> c[i] in g)
    && (forall i :: 0 <= i < |c| - 1 ==> c[i + 1] in g[c[i]])
  }

  ghost predicate Cycle(g: Graph, c: seq<string>) {
    |c| >= 2 && Chain(g, c) && c[0] == c[|c| - 1]
  }

  ghost predicate Acyclic(g: Graph) {
    !exists c :: Cycle(g, c)
  }

  // No node twice, and each after everything it depends on.
  ghost predicate Topological(g: Graph, s: seq<string>) {
    && Distinct(s)
    && (forall i :: 0 <= i < |s| ==> s[i] in g && g[s[i]] <= Names(s[..i]))
  }

  lemma TopologicalMore(g: Graph, s: seq<string>, n: string)
    requires Topological(g, s) && n in g && n !in Names(s) && g[n] <= Names(s)
    ensures Topological(g, s + [n])
  {
    forall i | 0 <= i < |s| + 1 ensures (s + [n])[i] in g && g[(s + [n])[i]] <= Names((s + [n])[..i]) {
      assert (s + [n])[..i] == s[..i];
    }
    assert s[..|s|] == s;
  }

  lemma {:induction false} EarlierAlong(g: Graph, s: seq<string>, c: seq<string>, i: nat)
    requires Topological(g, s) && Chain(g, c) && i < |s| && |c| >= 1 && c[0] == s[i]
    ensures exists j :: 0 <= j <= i && (|c| >= 2 ==> j < i) && s[j] == c[|c| - 1]
  {
    if |c| >= 2 {
      assert c[1] in g[c[0]];
      var k :| 0 <= k < |s[..i]| && s[..i][k] == c[1];
      EarlierAlong(g, s, c[1..], k);
    }
  }

  /** A graph all of whose nodes can be listed after their dependencies has no cycle. */
  lemma OrderedIsAcyclic(g: Graph, s: seq<string>)
    requires Topological(g, s) && Names(s) == g.Keys
    ensures Acyclic(g)
  {
    forall c ensures !Cycle(g, c) {
      if Cycle(g, c) {
        assert c[0] in Names(s);
        var i :| 0 <= i < |s| && s[i] == c[0];
        EarlierAlong(g, s, c, i);
        assert false;
      }
    }
  }

  lemma ClosedPath(g: Graph, path: seq<string>, i: nat)
    requires Chain(g, path) && i < |path| && path[i] in g[path[|path| - 1]]
    ensures !Acyclic(g)
  {
    var c := path[i..] + [path[i]];
    forall k | 0 <= k < |c| - 1 ensures c[k + 1] in g[c[k]] {
      assert c[k] == path[i + k];
      if k < |c| - 2 { assert c[k + 1] == path[i + k + 1]; }
    }
    assert Cycle(g, c);
  }

  // Following dependencies inside a finite pool that always offers one more must close a cycle.
  lemma {:induction false} Descend(g: Graph, pool: set<string>, path: seq<string>)
    requires pool <= g.Keys && forall n :: n in pool ==> g[n] * pool != {}
    requires path != [] && Distinct(path) && Names(path) <= pool && Chain(g, path)
    ensures !Acyclic(g)
    decreases |pool| - |path|
  {
    var last := path[|path| - 1];
    assert last in Names(path);
    var next :| next in g[last] * pool;
    if next in path {
      var i :| 0 <= i < |path| && path[i] == next;
      ClosedPath(g, path, i);
    } else {
      DistinctFits(path + [next], pool) by { PrefixNames(path, next); }
      PrefixNames(path, next);
      Descend(g, pool, path + [next]);
    }
  }

  /* ---- The cycle check: depth-first, with the nodes in progress and the finished ones ---- */

  class DependencyWalk {
    const g: Graph
    var visiting: set<string>
    var visited: set<string>
    ghost var stack: seq<string>
    ghost var finished: seq<string>

    ghost predicate Valid()
      reads this
    {
      && Closed(g) && visiting !! visited
      && Chain(g, stack) && Distinct(stack) && Names(stack) == visiting
      && Topological(g, finished) && Names(finished) == visited
    }

    constructor (g: Graph)
      requires Closed(g)
      ensures Valid() && this.g == g && visiting == {} && visited == {}
    {
      this.g := g;
      visiting, visited, stack, finished := {}, {}, [], [];
    }

    method Visit(name: string) returns (ok: bool)
      requires Valid() && name in g && (stack != [] ==> name in g[stack[|stack| - 1]])
      modifies this
      ensures ok ==> Valid() && visiting == old(visiting) && stack == old(stack)
                     && old(visited) + {name} <= visited
      ensures !ok ==> !Acyclic(g)
      decreases g.Keys - visiting
    {
      if name in visiting {
        ghost var i :| 0 <= i < |stack| && stack[i] == name;
        ClosedPath(g, stack, i);
        return false;
      }
      if name in visited { return true; }
      visiting := visiting + {name};
      PrefixNames(stack, name);
      stack := stack + [name];
      var rest := g[name];
      while rest != {}
        invariant Valid() && visiting == old(visiting) + {name} && stack == old(stack) + [name]
        invariant rest <= g[name] <= rest + visited && old(visited) <= visited && name !in visited
        decreases rest
      {
        var dependency :| dependency in rest;
        ok := Visit(dependency);
        if !ok { return; }
        rest := rest - {dependency};
      }
      visiting := visiting - {name};
      visited := visited + {name};
      assert stack[..|stack| - 1] == old(stack);
      stack := stack[..|stack| - 1];
      TopologicalMore(g, finished, name);
      PrefixNames(finished, name);
      finished := finished + [name];
      return true;
    }
  }

  /** The check passes exactly when the dependencies have no cycle. */
  method CheckAcyclic(g: Graph) returns (ok: bool)
    requires Closed(g)
    ensures ok <==> Acyclic(g)
  {
    var walk := new DependencyWalk(g);
    var rest := g.Keys;
    while rest != {}
      invariant walk.Valid() && walk.g == g && walk.visiting == {}
      invariant rest <= g.Keys <= rest + walk.visited
      decreases rest
    {
      var name :| name in rest;
      HeadNamed(walk.stack);
      ok := walk.Visit(name);
      if !ok { return; }
      rest := rest - {name};
    }
    OrderedIsAcyclic(g, walk.finished) by {
      forall n | n in walk.visited ensures n in g {
        var i :| 0 <= i < |walk.finished| && walk.finished[i] == n;
      }
    }
    return true;
  }

  /* ---- The layered order ---- */

  function Ready(g: Graph, emitted: set<string>): set<string> {
    set n | n in g && n !in emitted && g[n] <= emitted
  }

  // The layers still to come: all ready nodes in name order, then the layers they free.
  function LayersFrom(g: Graph, emitted: set<string>): Option<seq<string>>
    decreases |g.Keys - emitted|
  {
    if g.Keys <= emitted then Some([])
    else
      var ready := Ready(g, emitted);
      if ready == {} then None
      else
        LayerShrinks(g, emitted);
        Prefixed(SortedNames(ready), LayersFrom(g, emitted + ready))
  }

  lemma {:induction false} LayerExtends(g: Graph, order: seq<string>, layer: seq<string>)
    requires Topological(g, order) && Distinct(layer)
    requires forall n :: n in layer ==> n in g && n !in Names(order) && g[n] <= Names(order)
    ensures Topological(g, order + layer) && Names(order + layer) == Names(order) + Names(layer)
  {
    if layer == [] {
      assert order + layer == order;
    } else {
      var front, last := layer[..|layer| - 1], layer[|layer| - 1];
      LayerExtends(g, order, front);
      assert last !in Names(front);
      TopologicalMore(g, order + front, last);
      assert order + layer == order + front + [last];
    }
  }

  lemma SingleName(n: string)
    ensures Names([n]) == {n} && Distinct([n])
  {
  }

  lemma StuckMeansCycle(g: Graph, emitted: set<string>)
    requires Closed(g) && !(g.Keys <= emitted) && Ready(g, emitted) == {}
    ensures !Acyclic(g)
  {
    var pool := g.Keys - emitted;
    forall n | n in pool ensures g[n] * pool != {} {
      assert n !in Ready(g, emitted);
      var d :| d in g[n] && d !in emitted;
      assert d in g[n] * pool;
    }
    var n :| n in pool;
    SingleName(n);
    Descend(g, pool, [n]);
  }

  lemma NextLayer(g: Graph, ordered: seq<string>)
    requires Topological(g, ordered)
    ensures var layer := SortedNames(Ready(g, Names(ordered)));
            Topological(g, ordered + layer) && Names(ordered + layer) == Names(ordered) + Ready(g, Names(ordered))
  {
    var layer := SortedNames(Ready(g, Names(ordered)));
    forall n | n in layer ensures n in Ready(g, Names(ordered)) { assert n in Names(layer); }
    LayerExtends(g, ordered, layer);
  }

  lemma LayerShrinks(g: Graph, emitted: set<string>)
    requires Ready(g, emitted) != {}
    ensures |g.Keys - (emitted + Ready(g, emitted))| < |g.Keys - emitted|
  {
    var n :| n in Ready(g, emitted);
    assert n in g.Keys - emitted && n !in g.Keys - (emitted + Ready(g, emitted));
    SubsetSmaller(g.Keys - (emitted + Ready(g, emitted)), g.Keys - emitted);
  }

  function Prefixed(front: seq<string>, rest: Option<seq<string>>): Option<seq<string>> {
    match rest
    case None => None
    case Some(s) => Some(front + s)
  }

  lemma PrefixedNone(rest: Option<seq<string>>)
    ensures Prefixed([], rest) == rest
  {
    if rest.Some? { assert [] + rest.value == rest.value; }
  }

  lemma PrefixedTwice(a: seq<string>, b: seq<string>, rest: Option<seq<string>>)
    ensures Prefixed(a, Prefixed(b, rest)) == Prefixed(a + b, rest)
  {
    if rest.Some? { assert a + (b + rest.value) == (a + b) + rest.value; }
  }

  lemma {:induction false} LayersFromDecide(g: Graph, ordered: seq<string>)
    requires Closed(g) && Topological(g, ordered) && Names(ordered) <= g.Keys
    ensures match Prefixed(ordered, LayersFrom(g, Names(ordered)))
            case None => !Acyclic(g)
            case Some(r) => Topological(g, r) && Names(r) == g.Keys
    decreases |g.Keys - Names(ordered)|
  {
    var emitted := Names(ordered);
    if g.Keys <= emitted {
      assert ordered + [] == ordered;
    } else {
      var ready := Ready(g, emitted);
      if ready == {} {
        StuckMeansCycle(g, emitted);
      } else {
        NextLayer(g, ordered);
        LayerShrinks(g, emitted);
        LayersFromDecide(g, ordered + SortedNames(ready));
        PrefixedTwice(ordered, SortedNames(ready), LayersFrom(g, emitted + ready));
      }
    }
  }

  /** The layers exist exactly when there is no cycle; they list every node once, after everything it depends on. */
  lemma LayersDecide(g: Graph)
    requires Closed(g)
    ensures LayersFrom(g, {}).Some? <==> Acyclic(g)
    ensures LayersFrom(g, {}).Some? ==>
              Topological(g, LayersFrom(g, {}).value) && Names(LayersFrom(g, {}).value) == g.Keys
  {
    NoNames();
    LayersFromDecide(g, []);
    PrefixedNone(LayersFrom(g, {}));
    if LayersFrom(g, {}).Some? { OrderedIsAcyclic(g, LayersFrom(g, {}).value); }
  }

  /** The loop gets stuck exactly when there is a cycle; otherwise it lists the layers. */
  method Ordered(g: Graph) returns (r: Option<seq<string>>)
    requires Closed(g)
    ensures r == LayersFrom(g, {})
    ensures r.Some? <==> Acyclic(g)
    ensures r.Some? ==> Topological(g, r.value) && Names(r.value) == g.Keys
  {
    var ordered: seq<string> := [];
    var remaining, emitted := g.Keys, {};
    ghost var whole := LayersFrom(g, {});
    PrefixedNone(whole);
    while remaining != {}
      invariant remaining == g.Keys - emitted && emitted <= g.Keys
      invariant whole == Prefixed(ordered, LayersFrom(g, emitted))
      decreases remaining
    {
      var ready := Ready(g, emitted);
      if ready == {} {
        LayersDecide(g);
        return None;
      }
      PrefixedTwice(ordered, SortedNames(ready), LayersFrom(g, emitted + ready));
      ordered := ordered + SortedNames(ready);
      remaining := remaining - ready;
      emitted := emitted + ready;
    }
    assert LayersFrom(g, emitted) == Some([]) && ordered + [] == ordered;
    LayersDecide(g);
    return Some(ordered);
  }
}
