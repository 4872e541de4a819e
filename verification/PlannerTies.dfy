/** Which of several equally long plans the planner answers when all actions cost the same. */
module PlannerTies {
  import opened Wrappers
  import opened Ordering
  import opened Planner
  import opened PlannerTheorems
  import opened PlannerExact

  /* ---- Text order by the first place where two texts differ ---- */

  predicate CharDecides(a: string, b: string, i: nat) {
    i <= |a| && i < |b| && a[..i] == b[..i] && (i == |a| || a[i] < b[i])
  }

  // A proper prefix, or the smaller code point at the first place that differs.
  ghost predicate TextBefore(a: string, b: string) {
    exists i: nat :: CharDecides(a, b, i)
  }

  ghost predicate NameDecides(a: seq<string>, b: seq<string>, i: nat) {
    i < |a| && i < |b| && a[..i] == b[..i] && TextBefore(a[i], b[i])
  }

  // At the first place where two plans differ, the name in the first comes first.
  ghost predicate PlanBefore(a: seq<string>, b: seq<string>) {
    exists i: nat :: NameDecides(a, b, i)
  }

  lemma {:induction false} TextLeqBefore(a: string, b: string)
    requires TextLeq(a, b) && a != b
    ensures TextBefore(a, b)
  {
    if a == [] {
      assert a[..0] == b[..0] && CharDecides(a, b, 0);
    } else if a[0] < b[0] {
      assert a[..0] == b[..0] && CharDecides(a, b, 0);
    } else {
      assert a == [a[0]] + a[1..] && b == [b[0]] + b[1..];
      TextLeqBefore(a[1..], b[1..]);
      var i: nat :| CharDecides(a[1..], b[1..], i);
      assert a[..i + 1] == [a[0]] + a[1..][..i] && b[..i + 1] == [b[0]] + b[1..][..i];
      assert CharDecides(a, b, i + 1);
    }
  }

  lemma {:induction false} PathLeqBefore(a: seq<string>, b: seq<string>)
    requires PathLeq(a, b) && a != b && |a| == |b|
    ensures PlanBefore(a, b)
  {
    if a[0] == b[0] {
      assert a == [a[0]] + a[1..] && b == [b[0]] + b[1..];
      PathLeqBefore(a[1..], b[1..]);
      var i: nat :| NameDecides(a[1..], b[1..], i);
      assert a[..i + 1] == [a[0]] + a[1..][..i] && b[..i + 1] == [b[0]] + b[1..][..i];
      assert NameDecides(a, b, i + 1);
    } else {
      TextLeqBefore(a[0], b[0]);
      assert a[..0] == b[..0] && NameDecides(a, b, 0);
    }
  }

  /* ---- Plans by length, then by text ---- */

  predicate Sooner(a: seq<string>, b: seq<string>) {
    |a| < |b| || (|a| == |b| && PathLeq(a, b))
  }

  lemma SoonerTransitive(a: seq<string>, b: seq<string>, c: seq<string>)
    requires Sooner(a, b) && Sooner(b, c)
    ensures Sooner(a, c)
  {
    if |a| == |c| { PathTransitive(a, b, c); }
  }

  lemma {:induction false} PathLeqSame(a: seq<string>)
    ensures PathLeq(a, a)
  {
    if a != [] { PathLeqSame(a[1..]); }
  }

  lemma {:induction false} PathLeqMore(a: seq<string>, b: seq<string>, x: string, y: string)
    requires PathLeq(a, b) && |a| == |b| && (a == b ==> TextLeq(x, y))
    ensures PathLeq(a + [x], b + [y])
  {
    if a == [] {
      assert a + [x] == [x] && b + [y] == [y];
      assert [x][1..] == [] && [y][1..] == [];
    } else {
      assert (a + [x])[1..] == a[1..] + [x] && (b + [y])[1..] == b[1..] + [y];
      if a[0] == b[0] {
        assert a == [a[0]] + a[1..] && b == [b[0]] + b[1..];
        PathLeqMore(a[1..], b[1..], x, y);
      }
    }
  }

  lemma SoonerMore(a: seq<string>, b: seq<string>, x: string, y: string)
    requires Sooner(a, b) && (a == b ==> TextLeq(x, y))
    ensures Sooner(a + [x], b + [y])
  {
    if |a| == |b| { PathLeqMore(a, b, x, y); }
  }

  lemma TextLeqSame(a: string)
    ensures TextLeq(a, a)
  {
    TextTotal(a, a);
  }

  /* ---- The way recorded into each state ---- */

  type Ways = map<State, seq<string>>

  // The way leads to the state, over a state expanded before.
  ghost predicate WayOk(p: Problem, ways: Ways, done: set<State>, x: State)
    requires x in ways
  {
    && Execute(p, ways[x]).Some? && Execute(p, ways[x]).value.state == x
    && (ways[x] != [] ==> exists y :: y in done && y in ways && ways[y] == ways[x][..|ways[x]| - 1])
  }

  ghost predicate NodeOn(p: Problem, c: nat, ways: Ways, node: Node) {
    && node.state in ways && node.path == ways[node.state]
    && node.depth == |node.path| <= p.maxDepth && node.cost == Steps(c, node.depth)
  }

  // No action leads from the state to one whose way comes later than the way over this state.
  ghost predicate Leads(ways: Ways, x: State, action: Action)
    requires x in ways
  {
    Satisfies(x, action.preconditions) ==>
      x + action.effects in ways && Sooner(ways[x + action.effects], ways[x] + [action.name])
  }

  ghost predicate DoneOk(p: Problem, ways: Ways, x: State)
    requires x in ways
  {
    && !Satisfies(x, p.goal)
    && (|ways[x]| >= p.maxDepth || forall i :: 0 <= i < |p.actions| ==> Leads(ways, x, p.actions[i]))
  }

  ghost predicate Recorded(p: Problem, c: nat, best: map<State, nat>, ways: Ways) {
    && p.initial in ways && ways[p.initial] == []
    && best.Keys == ways.Keys && forall x :: x in ways ==> best[x] == Steps(c, |ways[x]|)
  }

  // Everything that waits is on its way, and comes no sooner than the given plan.
  ghost predicate Waiting(p: Problem, c: nat, ways: Ways, queue: seq<Node>, path: seq<string>) {
    forall i :: 0 <= i < |queue| ==> NodeOn(p, c, ways, queue[i]) && Sooner(path, queue[i].path)
  }

  ghost predicate WaysOk(p: Problem, ways: Ways, done: set<State>) {
    && (forall x :: x in ways ==> WayOk(p, ways, done, x))
    && forall x :: x in done ==> x in ways
  }

  ghost predicate Placed(ways: Ways, queue: seq<Node>, done: set<State>) {
    forall x :: x in ways ==> x in done || Waits(queue, x)
  }

  ghost predicate AllDone(p: Problem, ways: Ways, done: set<State>, floor: seq<string>) {
    forall x :: x in done ==> x in ways && Sooner(ways[x], floor) && DoneOk(p, ways, x)
  }

  ghost predicate Ties(p: Problem, c: nat, s: Search, ways: Ways, done: set<State>, floor: seq<string>) {
    && Recorded(p, c, s.best, ways) && Waiting(p, c, ways, s.queue, floor) && WaysOk(p, ways, done)
    && Placed(ways, s.queue, done) && AllDone(p, ways, done, floor) && Fresh(s.queue, done)
  }

  // Every state waits once at most, and not after it was expanded.
  ghost predicate Fresh(queue: seq<Node>, done: set<State>) {
    && (forall i :: 0 <= i < |queue| ==> queue[i].state !in done)
    && (forall i, j :: 0 <= i < j < |queue| ==> queue[i].state != queue[j].state)
  }

  lemma NodesSooner(p: Problem, c: nat, ways: Ways, a: Node, b: Node)
    requires NodeOn(p, c, ways, a) && NodeOn(p, c, ways, b) && NodeLeq(a, b)
    ensures Sooner(a.path, b.path)
  {
    if a.depth != b.depth {
      if b.depth < a.depth {
        StepsGrow(c, b.depth, a.depth);
      }
    } else {
      PathLeqSame(a.path);
    }
  }

  lemma RestIsQueue(s: Search, i: nat)
    requires s.queue != [] && i < |Pop(s).1.queue|
    ensures var k := MinIndex(s.queue);
            Pop(s).1.queue[i] == s.queue[if i < k then i else i + 1] && NodeLeq(Pop(s).0, Pop(s).1.queue[i])
  {
  }

  // What is popped comes soonest, and everything else still waits.
  lemma PopSoonest(p: Problem, c: nat, s: Search, ways: Ways, floor: seq<string>)
    requires Waiting(p, c, ways, s.queue, floor) && s.queue != [] && Recorded(p, c, s.best, ways)
    ensures var (node, rest) := Pop(s);
            && NodeOn(p, c, ways, node) && Sooner(floor, node.path) && !Stale(node, s)
            && Waiting(p, c, ways, rest.queue, node.path)
  {
    var (node, rest) := Pop(s);
    forall i | 0 <= i < |rest.queue|
      ensures NodeOn(p, c, ways, rest.queue[i]) && Sooner(node.path, rest.queue[i].path)
    {
      RestIsQueue(s, i);
      NodesSooner(p, c, ways, node, rest.queue[i]);
    }
  }

  lemma PopFresh(s: Search, done: set<State>)
    requires s.queue != [] && Fresh(s.queue, done)
    ensures Pop(s).0.state !in done && Fresh(Pop(s).1.queue, done + {Pop(s).0.state})
  {
    var (node, rest) := Pop(s);
    forall i | 0 <= i < |rest.queue| ensures rest.queue[i].state !in done + {node.state} { RestIsQueue(s, i); }
    forall i, j | 0 <= i < j < |rest.queue| ensures rest.queue[i].state != rest.queue[j].state {
      RestIsQueue(s, i);
      RestIsQueue(s, j);
    }
  }

  lemma PopPlaced(s: Search, ways: Ways, done: set<State>)
    requires s.queue != [] && Placed(ways, s.queue, done)
    ensures Placed(ways, Pop(s).1.queue, done + {Pop(s).0.state})
  {
    var k := MinIndex(s.queue);
    var (node, rest) := Pop(s);
    forall x | x in ways && x != node.state && x !in done ensures Waits(rest.queue, x) {
      var i :| 0 <= i < |s.queue| && s.queue[i].state == x;
      assert rest.queue[if i < k then i else i - 1].state == x;
    }
  }

  /* ---- One expansion ---- */

  // The expansion of a node, which counts as done, up to its first n actions.
  ghost predicate Expanding(p: Problem, c: nat, node: Node, n: nat, s: Search, ways: Ways, done: set<State>)
    requires n <= |p.actions|
  {
    && Recorded(p, c, s.best, ways) && NodeOn(p, c, ways, node) && node.depth < p.maxDepth && node.state in done
    && Waiting(p, c, ways, s.queue, node.path) && WaysOk(p, ways, done) && Placed(ways, s.queue, done)
    && Fresh(s.queue, done) && Fronts(p, node, n, ways) && LeadsFirst(p, ways, node.state, n)
  }

  // Ways over the node end in one of its first n actions; other ways go over a state that came sooner.
  ghost predicate Front(p: Problem, node: Node, n: nat, way: seq<string>)
    requires n <= |p.actions|
  {
    way != [] ==>
      var front, last := way[..|way| - 1], way[|way| - 1];
      && Sooner(front, node.path)
      && (front == node.path ==> exists i :: 0 <= i < n && p.actions[i].name == last)
  }

  ghost predicate Fronts(p: Problem, node: Node, n: nat, ways: Ways)
    requires n <= |p.actions|
  {
    forall x :: x in ways ==> Front(p, node, n, ways[x])
  }

  ghost predicate LeadsFirst(p: Problem, ways: Ways, x: State, n: nat)
    requires n <= |p.actions|
  {
    x in ways && forall i :: 0 <= i < n ==> Leads(ways, x, p.actions[i])
  }

  predicate InOrder(p: Problem) {
    forall i, j :: 0 <= i < j < |p.actions| ==> TextLeq(p.actions[i].name, p.actions[j].name)
  }

  // A way recorded so far comes no later than that over the node and its next action.
  lemma RecordedSooner(p: Problem, node: Node, n: nat, way: seq<string>)
    requires InOrder(p) && n < |p.actions| && Front(p, node, n, way)
    ensures Sooner(way, node.path + [p.actions[n].name])
  {
    if way != [] {
      var front, last := way[..|way| - 1], way[|way| - 1];
      assert way == front + [last];
      SoonerMore(front, node.path, last, p.actions[n].name);
    }
  }

  lemma FrontsMore(p: Problem, node: Node, n: nat, ways: Ways)
    requires n < |p.actions| && Fronts(p, node, n, ways)
    ensures Fronts(p, node, n + 1, ways)
  {
    forall x | x in ways ensures Front(p, node, n + 1, ways[x]) { assert Front(p, node, n, ways[x]); }
  }

  lemma RelaxIsIdle(p: Problem, c: nat, node: Node, n: nat, s: Search, ways: Ways)
    requires InOrder(p) && UniformCosts(p.actions, c) && n < |p.actions|
    requires Recorded(p, c, s.best, ways) && NodeOn(p, c, ways, node) && Fronts(p, node, n, ways)
    requires !Satisfies(node.state, p.actions[n].preconditions) || node.state + p.actions[n].effects in ways
    ensures Relax(node, p.actions[n], s) == s && Leads(ways, node.state, p.actions[n])
  {
    var action := p.actions[n];
    if Satisfies(node.state, action.preconditions) {
      var x := node.state + action.effects;
      RecordedSooner(p, node, n, ways[x]);
      StepsGrow(c, |ways[x]|, node.depth + 1);
      assert action.cost == c && x in s.best;
    }
  }

  lemma RelaxSkips(p: Problem, c: nat, node: Node, n: nat, s: Search, ways: Ways, done: set<State>)
    requires InOrder(p) && UniformCosts(p.actions, c) && n < |p.actions| && Expanding(p, c, node, n, s, ways, done)
    requires !Satisfies(node.state, p.actions[n].preconditions) || node.state + p.actions[n].effects in ways
    ensures Expanding(p, c, node, n + 1, Relax(node, p.actions[n], s), ways, done)
  {
    RelaxIsIdle(p, c, node, n, s, ways);
    FrontsMore(p, node, n, ways);
    assert LeadsFirst(p, ways, node.state, n + 1);
  }

  lemma ChildWay(p: Problem, node: Node, action: Action, ways: Ways, done: set<State>)
    requires UniqueNames(p.actions) && action in p.actions && node.state in ways && node.path == ways[node.state]
    requires WayOk(p, ways, done, node.state) && Satisfies(node.state, action.preconditions) && node.state in done
    requires node.state + action.effects !in ways
    ensures var x := node.state + action.effects; WayOk(p, ways[x := node.path + [action.name]], done, x)
  {
    var x := node.state + action.effects;
    var more := ways[x := node.path + [action.name]];
    var k :| 0 <= k < |p.actions| && p.actions[k] == action;
    FindUnique(p.actions, k);
    assert more[x][..|more[x]| - 1] == node.path && more[node.state] == node.path;
  }

  lemma OldWay(p: Problem, ways: Ways, done: set<State>, x: State, way: seq<string>, y: State)
    requires y in ways && WayOk(p, ways, done, y) && x !in ways
    ensures WayOk(p, ways[x := way], done, y)
  {
    var more := ways[x := way];
    if ways[y] != [] {
      var z :| z in done && z in ways && ways[z] == ways[y][..|ways[y]| - 1];
      assert more[z] == ways[z];
    }
  }

  lemma ChildWays(p: Problem, node: Node, action: Action, ways: Ways, done: set<State>)
    requires UniqueNames(p.actions) && action in p.actions && node.state in ways && node.path == ways[node.state]
    requires WaysOk(p, ways, done) && Satisfies(node.state, action.preconditions) && node.state in done
    requires node.state + action.effects !in ways
    ensures WaysOk(p, ways[node.state + action.effects := node.path + [action.name]], done)
  {
    var x, way := node.state + action.effects, node.path + [action.name];
    var more := ways[x := way];
    ChildWay(p, node, action, ways, done);
    forall y | y in more ensures WayOk(p, more, done, y) {
      if y != x { OldWay(p, ways, done, x, way, y); }
    }
  }

  lemma ChildFronts(p: Problem, node: Node, n: nat, ways: Ways, x: State)
    requires n < |p.actions| && Fronts(p, node, n, ways)
    ensures Fronts(p, node, n + 1, ways[x := node.path + [p.actions[n].name]])
  {
    var way := node.path + [p.actions[n].name];
    FrontsMore(p, node, n, ways);
    assert way[..|way| - 1] == node.path && p.actions[n].name == way[|way| - 1];
    PathLeqSame(node.path);
    assert Front(p, node, n + 1, way);
  }

  lemma ChildLeads(p: Problem, node: Node, n: nat, ways: Ways)
    requires n < |p.actions| && LeadsFirst(p, ways, node.state, n) && node.path == ways[node.state]
    requires Satisfies(node.state, p.actions[n].preconditions) && node.state + p.actions[n].effects !in ways
    ensures LeadsFirst(p, ways[node.state + p.actions[n].effects := node.path + [p.actions[n].name]], node.state, n + 1)
  {
    var way := node.path + [p.actions[n].name];
    var more := ways[node.state + p.actions[n].effects := way];
    PathLeqSame(way);
    forall i | 0 <= i < n + 1 ensures Leads(more, node.state, p.actions[i]) {
      if i < n { assert Leads(ways, node.state, p.actions[i]); }
    }
  }

  lemma ChildRecorded(p: Problem, c: nat, best: map<State, nat>, ways: Ways, x: State, way: seq<string>)
    requires Recorded(p, c, best, ways) && x !in ways
    ensures Recorded(p, c, best[x := Steps(c, |way|)], ways[x := way])
  {
  }

  lemma ChildWaits(p: Problem, c: nat, path: seq<string>, queue: seq<Node>, child: Node, ways: Ways, done: set<State>)
    requires Waiting(p, c, ways, queue, path) && Placed(ways, queue, done) && Fresh(queue, done)
    requires child.state !in ways && forall y :: y in done ==> y in ways
    requires child.depth == |path| + 1 == |child.path| && child.depth <= p.maxDepth
    requires child.cost == Steps(c, child.depth)
    ensures var more := ways[child.state := child.path];
            && Waiting(p, c, more, queue + [child], path) && Placed(more, queue + [child], done)
            && Fresh(queue + [child], done)
  {
    var more, grown := ways[child.state := child.path], queue + [child];
    forall i | 0 <= i < |grown| ensures NodeOn(p, c, more, grown[i]) && Sooner(path, grown[i].path) {
      if i < |queue| { assert grown[i] == queue[i]; }
    }
    forall y | y in more && y !in done ensures Waits(grown, y) {
      if y == child.state {
        assert grown[|queue|].state == y;
      } else {
        var i :| 0 <= i < |queue| && queue[i].state == y;
        assert grown[i].state == y;
      }
    }
    forall i, j | 0 <= i < j < |grown| ensures grown[i].state != grown[j].state {
      assert grown[i] == queue[i] && NodeOn(p, c, ways, queue[i]);
    }
  }

  lemma RelaxPushes(c: nat, node: Node, action: Action, s: Search)
    requires action.cost == c && node.cost == Steps(c, node.depth) && node.depth == |node.path|
    requires Satisfies(node.state, action.preconditions) && node.state + action.effects !in s.best
    ensures var x, way := node.state + action.effects, node.path + [action.name];
            Relax(node, action, s) ==
            Search(s.queue + [Node(Steps(c, |way|), |way|, way, s.serial, x)], s.best[x := Steps(c, |way|)],
                   s.serial + 1, s.explored)
  {
  }

  lemma ChildExpanding(p: Problem, c: nat, node: Node, n: nat, s: Search, child: Node, ways: Ways, done: set<State>)
    requires UniqueNames(p.actions) && n < |p.actions| && Expanding(p, c, node, n, s, ways, done)
    requires Satisfies(node.state, p.actions[n].preconditions) && node.state + p.actions[n].effects !in ways
    requires child.state == node.state + p.actions[n].effects && child.path == node.path + [p.actions[n].name]
    requires child.depth == |child.path| && child.cost == Steps(c, |child.path|)
    ensures Expanding(p, c, node, n + 1,
                      Search(s.queue + [child], s.best[child.state := child.cost], s.serial + 1, s.explored),
                      ways[child.state := child.path], done)
  {
    ChildRecorded(p, c, s.best, ways, child.state, child.path);
    ChildWaits(p, c, node.path, s.queue, child, ways, done);
    ChildWays(p, node, p.actions[n], ways, done);
    ChildFronts(p, node, n, ways, child.state);
    ChildLeads(p, node, n, ways);
  }

  // A new state: it is recorded and waits.
  lemma RelaxRecords(p: Problem, c: nat, node: Node, n: nat, s: Search, ways: Ways, done: set<State>)
    requires UniqueNames(p.actions) && UniformCosts(p.actions, c) && n < |p.actions|
    requires Expanding(p, c, node, n, s, ways, done)
    requires Satisfies(node.state, p.actions[n].preconditions) && node.state + p.actions[n].effects !in ways
    ensures Expanding(p, c, node, n + 1, Relax(node, p.actions[n], s),
                      ways[node.state + p.actions[n].effects := node.path + [p.actions[n].name]], done)
  {
    var action := p.actions[n];
    var x, way := node.state + action.effects, node.path + [action.name];
    assert x !in s.best;
    RelaxPushes(c, node, action, s);
    ChildExpanding(p, c, node, n, s, Node(Steps(c, |way|), |way|, way, s.serial, x), ways, done);
  }

  ghost predicate MoreWays(ways: Ways, more: Ways) {
    forall x :: x in ways ==> x in more && more[x] == ways[x]
  }

  lemma RelaxTies(p: Problem, c: nat, node: Node, n: nat, s: Search, ways: Ways, done: set<State>)
    returns (more: Ways)
    requires InOrder(p) && UniqueNames(p.actions) && UniformCosts(p.actions, c) && n < |p.actions|
    requires Expanding(p, c, node, n, s, ways, done)
    ensures Expanding(p, c, node, n + 1, Relax(node, p.actions[n], s), more, done) && MoreWays(ways, more)
  {
    var x := node.state + p.actions[n].effects;
    if !Satisfies(node.state, p.actions[n].preconditions) || x in ways {
      RelaxSkips(p, c, node, n, s, ways, done);
      more := ways;
    } else {
      RelaxRecords(p, c, node, n, s, ways, done);
      more := ways[x := node.path + [p.actions[n].name]];
    }
  }

  lemma ExpandLast(node: Node, actions: seq<Action>, n: nat, s: Search, t: Search)
    requires 0 < n <= |actions| && t == Expand(node, actions[..n - 1], s)
    ensures Expand(node, actions[..n], s) == Relax(node, actions[n - 1], t)
  {
    assert actions[..n][..n - 1] == actions[..n - 1];
  }

  lemma MoreWaysTransitive(ways: Ways, before: Ways, more: Ways)
    requires MoreWays(ways, before) && MoreWays(before, more)
    ensures MoreWays(ways, more)
  {
  }

  lemma ExpandNone(node: Node, actions: seq<Action>, s: Search)
    ensures Expand(node, actions[..0], s) == s
  {
  }

  lemma ExpandStep(p: Problem, c: nat, node: Node, n: nat, s: Search, t: Search, ways: Ways, before: Ways,
                   done: set<State>)
    returns (more: Ways)
    requires InOrder(p) && UniqueNames(p.actions) && UniformCosts(p.actions, c) && 0 < n <= |p.actions|
    requires t == Expand(node, p.actions[..n - 1], s)
    requires Expanding(p, c, node, n - 1, t, before, done) && MoreWays(ways, before)
    ensures Expanding(p, c, node, n, Expand(node, p.actions[..n], s), more, done) && MoreWays(ways, more)
  {
    more := RelaxTies(p, c, node, n - 1, t, before, done);
    ExpandLast(node, p.actions, n, s, t);
    MoreWaysTransitive(ways, before, more);
  }

  lemma {:induction false} ExpandTies(p: Problem, c: nat, node: Node, n: nat, s: Search, ways: Ways, done: set<State>)
    returns (t: Search, more: Ways)
    requires InOrder(p) && UniqueNames(p.actions) && UniformCosts(p.actions, c) && n <= |p.actions|
    requires Expanding(p, c, node, 0, s, ways, done)
    ensures t == Expand(node, p.actions[..n], s)
    ensures Expanding(p, c, node, n, t, more, done) && MoreWays(ways, more)
    decreases n
  {
    if n == 0 {
      ExpandNone(node, p.actions, s);
      t, more := s, ways;
    } else {
      var u, before := ExpandTies(p, c, node, n - 1, s, ways, done);
      t := Expand(node, p.actions[..n], s);
      more := ExpandStep(p, c, node, n, s, u, ways, before, done);
    }
  }

  /* ---- One turn of the search ---- */

  // Before its expansion no way goes over the node.
  lemma NoWayOver(p: Problem, c: nat, node: Node, ways: Ways, done: set<State>, floor: seq<string>)
    requires WaysOk(p, ways, done) && AllDone(p, ways, done, floor) && node.state !in done
    requires NodeOn(p, c, ways, node) && Sooner(floor, node.path)
    ensures Fronts(p, node, 0, ways)
  {
    forall x | x in ways ensures Front(p, node, 0, ways[x]) {
      assert WayOk(p, ways, done, x) && WayOk(p, ways, done, node.state);
      if ways[x] != [] {
        var y :| y in done && y in ways && ways[y] == ways[x][..|ways[x]| - 1];
        SoonerTransitive(ways[y], floor, node.path);
        assert WayOk(p, ways, done, y);
      }
    }
  }

  lemma MoreDone(ways: Ways, p: Problem, done: set<State>, x: State)
    requires WaysOk(p, ways, done) && x in ways
    ensures WaysOk(p, ways, done + {x})
  {
    forall y | y in ways ensures WayOk(p, ways, done + {x}, y) { assert WayOk(p, ways, done, y); }
  }

  lemma DoneLater(p: Problem, ways: Ways, more: Ways, done: set<State>, floor: seq<string>, later: seq<string>)
    requires AllDone(p, ways, done, floor) && MoreWays(ways, more) && Sooner(floor, later)
    ensures AllDone(p, more, done, later)
  {
    forall x | x in done ensures x in more && Sooner(more[x], later) && DoneOk(p, more, x) {
      SoonerTransitive(ways[x], floor, later);
      if |ways[x]| < p.maxDepth {
        forall i | 0 <= i < |p.actions| ensures Leads(more, x, p.actions[i]) {
          assert Leads(ways, x, p.actions[i]);
        }
      }
    }
  }

  lemma OneMoreDone(p: Problem, ways: Ways, done: set<State>, path: seq<string>, x: State)
    requires AllDone(p, ways, done, path) && x in ways && ways[x] == path && DoneOk(p, ways, x)
    ensures AllDone(p, ways, done + {x}, path)
  {
    PathLeqSame(path);
  }

  // The popped node is dropped at the depth bound.
  lemma DropTies(p: Problem, c: nat, s: Search, ways: Ways, done: set<State>, floor: seq<string>)
    requires Ties(p, c, s, ways, done, floor) && s.queue != []
    requires !Satisfies(Pop(s).0.state, p.goal) && Pop(s).0.depth >= p.maxDepth
    ensures Ties(p, c, Pop(s).1, ways, done + {Pop(s).0.state}, Pop(s).0.path)
  {
    var node := Pop(s).0;
    PopSoonest(p, c, s, ways, floor);
    PopFresh(s, done);
    PopPlaced(s, ways, done);
    MoreDone(ways, p, done, node.state);
    DoneLater(p, ways, ways, done, floor, node.path);
    OneMoreDone(p, ways, done, node.path, node.state);
  }

  lemma StartExpanding(p: Problem, c: nat, s: Search, node: Node, counted: Search, ways: Ways, done: set<State>,
                       floor: seq<string>)
    requires Ties(p, c, s, ways, done, floor) && s.queue != [] && node == Pop(s).0 && node.depth < p.maxDepth
    requires counted == Pop(s).1.(explored := counted.explored)
    ensures Expanding(p, c, node, 0, counted, ways, done + {node.state}) && Sooner(floor, node.path)
  {
    PopSoonest(p, c, s, ways, floor);
    PopFresh(s, done);
    PopPlaced(s, ways, done);
    MoreDone(ways, p, done, node.state);
    NoWayOver(p, c, node, ways, done, floor);
  }

  lemma ExpandedTies(p: Problem, c: nat, node: Node, s: Search, more: Ways, done: set<State>)
    requires Expanding(p, c, node, |p.actions|, s, more, done + {node.state}) && !Satisfies(node.state, p.goal)
    requires AllDone(p, more, done, node.path)
    ensures Ties(p, c, s, more, done + {node.state}, node.path)
  {
    OneMoreDone(p, more, done, node.path, node.state);
  }

  lemma ExpandAll(p: Problem, c: nat, node: Node, counted: Search, ways: Ways, done: set<State>) returns (more: Ways)
    requires InOrder(p) && UniqueNames(p.actions) && UniformCosts(p.actions, c)
    requires Expanding(p, c, node, 0, counted, ways, done)
    ensures Expanding(p, c, node, |p.actions|, Expand(node, p.actions, counted), more, done) && MoreWays(ways, more)
  {
    var t; t, more := ExpandTies(p, c, node, |p.actions|, counted, ways, done);
    assert p.actions[..|p.actions|] == p.actions;
  }

  lemma GrownTies(p: Problem, c: nat, node: Node, t: Search, ways: Ways, more: Ways, done: set<State>,
                  floor: seq<string>)
    requires Expanding(p, c, node, |p.actions|, t, more, done + {node.state}) && MoreWays(ways, more)
    requires Sooner(floor, node.path) && AllDone(p, ways, done, floor) && !Satisfies(node.state, p.goal)
    ensures Ties(p, c, t, more, done + {node.state}, node.path)
  {
    DoneLater(p, ways, more, done, floor, node.path);
    ExpandedTies(p, c, node, t, more, done);
  }

  // The popped node is expanded.
  lemma GrowTies(p: Problem, c: nat, node: Node, counted: Search, ways: Ways, done: set<State>, floor: seq<string>)
    returns (more: Ways)
    requires InOrder(p) && UniqueNames(p.actions) && UniformCosts(p.actions, c)
    requires Expanding(p, c, node, 0, counted, ways, done + {node.state}) && Sooner(floor, node.path)
    requires AllDone(p, ways, done, floor) && !Satisfies(node.state, p.goal)
    ensures Ties(p, c, Expand(node, p.actions, counted), more, done + {node.state}, node.path)
  {
    more := ExpandAll(p, c, node, counted, ways, done + {node.state});
    GrownTies(p, c, node, Expand(node, p.actions, counted), ways, more, done, floor);
  }

  lemma TiesIgnoreCount(p: Problem, c: nat, s: Search, t: Search, ways: Ways, done: set<State>, floor: seq<string>)
    requires Ties(p, c, s, ways, done, floor) && t == s.(explored := t.explored)
    ensures Ties(p, c, t, ways, done, floor)
  {
  }

  lemma StepIs(p: Problem, c: nat, s: Search, ways: Ways, floor: seq<string>, node: Node, counted: Search)
    requires Waiting(p, c, ways, s.queue, floor) && Recorded(p, c, s.best, ways) && Step(p, s).Again?
    requires node == Pop(s).0 && counted == Pop(s).1.(explored := Pop(s).1.explored + 1)
    ensures !Satisfies(node.state, p.goal)
    ensures Step(p, s).next == if node.depth >= p.maxDepth then counted else Expand(node, p.actions, counted)
  {
    PopSoonest(p, c, s, ways, floor);
  }

  lemma NextTies(p: Problem, c: nat, s: Search, ways: Ways, done: set<State>, floor: seq<string>)
    returns (more: Ways, closed: set<State>, later: seq<string>)
    requires InOrder(p) && UniqueNames(p.actions) && UniformCosts(p.actions, c)
    requires Ties(p, c, s, ways, done, floor) && Step(p, s).Again?
    ensures Ties(p, c, Step(p, s).next, more, closed, later)
  {
    var node, rest := Pop(s).0, Pop(s).1;
    var counted := rest.(explored := rest.explored + 1);
    StepIs(p, c, s, ways, floor, node, counted);
    closed, later := done + {node.state}, node.path;
    if node.depth >= p.maxDepth {
      DropTies(p, c, s, ways, done, floor);
      more := ways;
      TiesIgnoreCount(p, c, rest, counted, more, closed, later);
    } else {
      StartExpanding(p, c, s, node, counted, ways, done, floor);
      more := GrowTies(p, c, node, counted, ways, done, floor);
    }
  }

  /* ---- The answer ---- */

  // One step further along a plan, over a state that was expanded.
  lemma SoonestNext(p: Problem, ways: Ways, path: seq<string>, j: nat) returns (y: State)
    requires Execute(p, path).Some? && j < |path| && Execute(p, path[..j]).Some?
    requires var x := Execute(p, path[..j]).value.state;
             x in ways && Sooner(ways[x], path[..j]) && DoneOk(p, ways, x) && |ways[x]| < p.maxDepth
    ensures Execute(p, path[..j + 1]).Some? && y == Execute(p, path[..j + 1]).value.state
    ensures y in ways && Sooner(ways[y], path[..j + 1])
  {
    var x := Execute(p, path[..j]).value.state;
    y := NextOnPath(p, path, j);
    FindIndex(p.actions, path[j]);
    assert Leads(ways, x, Find(p.actions, path[j]).value);
    TextLeqSame(path[j]);
    SoonerMore(ways[x], path[..j], path[j], path[j]);
    assert path[..j + 1] == path[..j] + [path[j]];
    SoonerTransitive(ways[y], ways[x] + [path[j]], path[..j + 1]);
  }

  // A plan that comes no later than what waits comes no later than any achieving one over a recorded state.
  lemma SoonestFrom(p: Problem, ways: Ways, done: set<State>, floor: seq<string>, found: seq<string>,
                    path: seq<string>, j: nat)
    requires AllDone(p, ways, done, floor) && |found| <= p.maxDepth && Achieves(p, path) && j <= |path|
    requires forall y :: y in ways && y !in done ==> Sooner(found, ways[y])
    requires Execute(p, path[..j]).Some? && Execute(p, path[..j]).value.state in ways
    requires Sooner(ways[Execute(p, path[..j]).value.state], path[..j])
    ensures Sooner(found, path)
    decreases |path| - j
  {
    var x := Execute(p, path[..j]).value.state;
    assert path[..|path|] == path;
    if x !in done {
      SoonerTransitive(found, ways[x], path[..j]);
      SoonerPrefix(found, path, j);
    } else if j < |path| && |ways[x]| < p.maxDepth {
      var y := SoonestNext(p, ways, path, j);
      SoonestFrom(p, ways, done, floor, found, path, j + 1);
    }
  }

  lemma SoonerPrefix(a: seq<string>, path: seq<string>, j: nat)
    requires j <= |path| && Sooner(a, path[..j])
    ensures Sooner(a, path)
  {
    if j == |path| { assert path[..j] == path; }
  }

  lemma SoonestWaiting(p: Problem, c: nat, s: Search, ways: Ways, done: set<State>, floor: seq<string>, x: State)
    requires Ties(p, c, s, ways, done, floor) && s.queue != [] && x in ways && x !in done
    ensures Sooner(Pop(s).0.path, ways[x])
  {
    var i :| 0 <= i < |s.queue| && s.queue[i].state == x;
    assert NodeLeq(Pop(s).0, s.queue[i]);
    NodesSooner(p, c, ways, Pop(s).0, s.queue[i]);
  }

  lemma {:induction false} FindIndex(actions: seq<Action>, name: string)
    requires Find(actions, name).Some?
    ensures exists i :: 0 <= i < |actions| && actions[i] == Find(actions, name).value
    ensures Find(actions, name).value.name == name
  {
    FindSound(actions, name);
  }

  lemma NextOnPath(p: Problem, path: seq<string>, j: nat) returns (y: State)
    requires Execute(p, path).Some? && j < |path| && Execute(p, path[..j]).Some?
    ensures Execute(p, path[..j + 1]).Some? && y == Execute(p, path[..j + 1]).value.state
    ensures Find(p.actions, path[j]).Some?
    ensures var x, action := Execute(p, path[..j]).value.state, Find(p.actions, path[j]).value;
            Satisfies(x, action.preconditions) && y == x + action.effects
  {
    PrefixExecutes(p, path, j + 1);
    assert path[..j + 1][..j] == path[..j];
    y := Execute(p, path[..j + 1]).value.state;
  }

  lemma PoppedSoonest(p: Problem, c: nat, s: Search, ways: Ways, done: set<State>, floor: seq<string>,
                      path: seq<string>)
    requires Ties(p, c, s, ways, done, floor) && s.queue != [] && Achieves(p, path)
    ensures Sooner(Pop(s).0.path, path)
  {
    var found := Pop(s).0.path;
    assert path[..0] == [];
    PathLeqSame([]);
    PopSoonest(p, c, s, ways, floor);
    forall x | x in ways && x !in done ensures Sooner(found, ways[x]) {
      SoonestWaiting(p, c, s, ways, done, floor, x);
    }
    SoonestFrom(p, ways, done, floor, found, path, 0);
  }

  lemma RunStep(p: Problem, s: Search)
    ensures Step(p, s).Again? ==> Run(p, s) == Run(p, Step(p, s).next)
    ensures Step(p, s).Stop? && Run(p, s).Found? ==> s.queue != [] && Run(p, s).node == Pop(s).0
  {
  }

  lemma {:induction false} FoundSoonest(p: Problem, c: nat, s: Search, ways: Ways, done: set<State>,
                                        floor: seq<string>, path: seq<string>)
    requires InOrder(p) && UniqueNames(p.actions) && UniformCosts(p.actions, c)
    requires Ties(p, c, s, ways, done, floor) && Run(p, s).Found? && Achieves(p, path)
    ensures Sooner(Run(p, s).node.path, path)
    decreases p.maxNodes - s.explored, |s.queue|
  {
    RunStep(p, s);
    if Step(p, s).Stop? {
      PoppedSoonest(p, c, s, ways, done, floor, path);
    } else {
      var next := Step(p, s).next;
      var more, closed, later := NextTies(p, c, s, ways, done, floor);
      FoundSoonest(p, c, next, more, closed, later, path);
    }
  }

  lemma TiesStart(p: Problem, c: nat)
    requires 0 <= p.maxDepth
    ensures Ties(p, c, Start(p), map[p.initial := []], {}, [])
  {
    assert Start(p).queue[0].state == p.initial;
    PathLeqSame([]);
  }

  lemma OrderedInOrder(p: Problem)
    ensures InOrder(Ordered(p))
  {
    SortSorted(NameOf(), p.actions);
    var actions := Ordered(p).actions;
    forall i, j | 0 <= i < j < |actions| ensures TextLeq(actions[i].name, actions[j].name) {
      assert TextLeq(NameOf()(actions[i]), NameOf()(actions[j]));
    }
  }

  /**
   * When all actions cost the same, an achieved plan is a shortest one, and among the shortest achieving plans the one
   * that has the name first in text order at the first place where they differ. No bound matters to that.
   */
  lemma EqualCostsChooseFirst(p: Problem, c: nat, path: seq<string>)
    requires UniformCosts(p.actions, c) && PlanOf(p).Ok? && PlanOf(p).value.achieved && Achieves(p, path)
    ensures var chosen := PlanOf(p).value.actions;
            |chosen| < |path| || (|chosen| == |path| && (chosen == path || PlanBefore(chosen, path)))
  {
    if !Satisfies(p.initial, p.goal) {
      var q := Ordered(p);
      ExecuteOrdered(p, path);
      OrderedStart(p);
      OrderedInOrder(p);
      UniformOrdered(p, c);
      TiesStart(q, c);
      FoundSoonest(q, c, Start(q), map[q.initial := []], {}, [], path);
      var chosen := PlanOf(p).value.actions;
      if |chosen| == |path| && chosen != path { PathLeqBefore(chosen, path); }
    }
  }
}
