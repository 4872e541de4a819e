/** What a verdict of the GOAP planner means for the plans a caller could execute. */
module PlannerTheorems {
  import opened Wrappers
  import opened Ordering
  import opened Planner

  /* ---- Executing a plan, independently of the search ---- */

  datatype Arrival = Arrival(state: State, cost: nat)

  function Find(actions: seq<Action>, name: string): Option<Action> {
    if actions == [] then None
    else if actions[0].name == name then Some(actions[0])
    else Find(actions[1..], name)
  }

  // Where a plan leads from the initial state and what it costs, if every step is applicable.
  function Execute(p: Problem, path: seq<string>): Option<Arrival> {
    if path == [] then Some(Arrival(p.initial, 0))
    else
      var last := |path| - 1;
      match (Execute(p, path[..last]), Find(p.actions, path[last]))
      case (Some(at), Some(action)) =>
        if Satisfies(at.state, action.preconditions)
        then Some(Arrival(at.state + action.effects, at.cost + action.cost)) else None
      case _ => None
  }

  ghost predicate Achieves(p: Problem, path: seq<string>) {
    Execute(p, path).Some? && Satisfies(Execute(p, path).value.state, p.goal)
  }

  lemma {:induction false} FindUnique(actions: seq<Action>, i: nat)
    requires UniqueNames(actions) && i < |actions|
    ensures Find(actions, actions[i].name) == Some(actions[i])
  {
    if i > 0 {
      assert actions[1..][i - 1] == actions[i];
      FindUnique(actions[1..], i - 1);
    }
  }

  lemma {:induction false} FindSound(actions: seq<Action>, name: string)
    ensures Find(actions, name).Some? ==>
              Find(actions, name).value in actions && Find(actions, name).value.name == name
    ensures Find(actions, name).None? ==> forall i :: 0 <= i < |actions| ==> actions[i].name != name
  {
    if actions != [] { FindSound(actions[1..], name); }
  }

  lemma {:induction false} PrefixExecutes(p: Problem, path: seq<string>, i: nat)
    requires Execute(p, path).Some? && i <= |path|
    ensures Execute(p, path[..i]).Some?
    ensures Execute(p, path[..i]).value.cost <= Execute(p, path).value.cost
  {
    if i == |path| {
      assert path[..i] == path;
    } else {
      assert path[..|path| - 1][..i] == path[..i];
      PrefixExecutes(p, path[..|path| - 1], i);
    }
  }

  /* ---- The invariant of the search ---- */

  // The prefix leads to a recorded state, at no less than its recorded cost.
  ghost predicate Recorded(p: Problem, best: map<State, nat>, prefix: seq<string>) {
    && Execute(p, prefix).Some?
    && var at := Execute(p, prefix).value;
    at.state in best && best[at.state] <= at.cost
  }

  ghost predicate Apart(p: Problem, a: seq<string>, b: seq<string>) {
    Execute(p, a).Some? && Execute(p, b).Some? ==> Execute(p, a).value.state != Execute(p, b).value.state
  }

  // Every prefix is recorded and no state is visited twice.
  ghost predicate Trail(p: Problem, best: map<State, nat>, path: seq<string>) {
    && (forall i :: 0 <= i <= |path| ==> Recorded(p, best, path[..i]))
    && (forall i, j :: 0 <= i < j <= |path| ==> Apart(p, path[..i], path[..j]))
  }

  ghost predicate NodeOk(p: Problem, best: map<State, nat>, node: Node) {
    && node.depth == |node.path|
    && Execute(p, node.path) == Some(Arrival(node.state, node.cost))
    && Trail(p, best, node.path)
    && node.state in best && best[node.state] <= node.cost
    && node.depth <= p.maxDepth
  }

  ghost predicate Queued(s: Search, x: State)
    requires x in s.best
  {
    exists i :: 0 <= i < |s.queue| && s.queue[i].state == x && s.queue[i].cost == s.best[x]
  }

  ghost predicate Covers(best: map<State, nat>, x: State, action: Action)
    requires x in best
  {
    Satisfies(x, action.preconditions) ==>
      x + action.effects in best && best[x + action.effects] <= best[x] + action.cost
  }

  ghost predicate Closed(p: Problem, best: map<State, nat>, x: State)
    requires x in best
  {
    && !Satisfies(x, p.goal)
    && forall i :: 0 <= i < |p.actions| ==> Covers(best, x, p.actions[i])
  }

  // Everything known is still queued, or fully expanded, or among the states given up.
  ghost predicate Inv(p: Problem, s: Search, gone: set<State>) {
    && p.initial in s.best && s.best[p.initial] == 0
    && (forall i :: 0 <= i < |s.queue| ==> NodeOk(p, s.best, s.queue[i]))
    && (forall x :: x in s.best ==> Queued(s, x) || Closed(p, s.best, x) || x in gone)
  }

  ghost predicate Lowers(best: map<State, nat>, lower: map<State, nat>) {
    forall x :: x in best ==> x in lower && lower[x] <= best[x]
  }

  lemma StartInv(p: Problem)
    requires 0 <= p.maxDepth
    ensures Inv(p, Start(p), {})
  {
    var s := Start(p);
    assert s.queue[0].state == p.initial && s.queue[0].cost == s.best[p.initial];
    assert Queued(s, p.initial);
    var none: seq<string> := [];
    assert none[..0] == none;
  }

  lemma NodeOkLowers(p: Problem, best: map<State, nat>, lower: map<State, nat>, node: Node)
    requires NodeOk(p, best, node) && Lowers(best, lower)
    ensures NodeOk(p, lower, node)
  {
    forall i | 0 <= i <= |node.path| ensures Recorded(p, lower, node.path[..i]) {
      assert Recorded(p, best, node.path[..i]);
    }
  }

  lemma ChildExecutes(p: Problem, best: map<State, nat>, node: Node, action: Action)
    requires UniqueNames(p.actions) && action in p.actions
    requires NodeOk(p, best, node) && Satisfies(node.state, action.preconditions)
    ensures Execute(p, node.path + [action.name])
         == Some(Arrival(node.state + action.effects, node.cost + action.cost))
  {
    var k :| 0 <= k < |p.actions| && p.actions[k] == action;
    FindUnique(p.actions, k);
    assert (node.path + [action.name])[..|node.path|] == node.path;
  }

  // A cheaper way into a state cannot pass through that state already.
  lemma ChildTrail(p: Problem, best: map<State, nat>, node: Node, action: Action)
    requires UniqueNames(p.actions) && action in p.actions
    requires NodeOk(p, best, node) && Satisfies(node.state, action.preconditions)
    requires var next := node.state + action.effects;
             next !in best || node.cost + action.cost < best[next]
    ensures Trail(p, best[node.state + action.effects := node.cost + action.cost], node.path + [action.name])
  {
    var next := node.state + action.effects;
    var lower := best[next := node.cost + action.cost];
    var path := node.path + [action.name];
    var n := |node.path|;
    ChildExecutes(p, best, node, action);
    assert path[..n + 1] == path;
    forall i | 0 <= i <= n
      ensures path[..i] == node.path[..i] && Recorded(p, lower, path[..i]) && Apart(p, path[..i], path)
    {
      assert path[..i] == node.path[..i];
      assert Recorded(p, best, node.path[..i]);
      PrefixExecutes(p, node.path, i);
    }
    forall i, j | 0 <= i < j <= n + 1 ensures Apart(p, path[..i], path[..j]) {
      if j <= n { assert Apart(p, node.path[..i], node.path[..j]); }
    }
  }

  /** The node pushed for an applicable action extends a repetition-free path. */
  lemma ChildOk(p: Problem, best: map<State, nat>, node: Node, action: Action, serial: nat)
    requires UniqueNames(p.actions) && action in p.actions
    requires NodeOk(p, best, node) && node.depth < p.maxDepth
    requires Satisfies(node.state, action.preconditions)
    requires var next := node.state + action.effects;
             next !in best || node.cost + action.cost < best[next]
    ensures var next := node.state + action.effects;
            var cost := node.cost + action.cost;
            NodeOk(p, best[next := cost], Node(cost, node.depth + 1, node.path + [action.name], serial, next))
  {
    ChildExecutes(p, best, node, action);
    ChildTrail(p, best, node, action);
  }

  lemma QueuedPush(s: Search, node: Node, x: State)
    requires x in s.best && x != node.state && Queued(s, x)
    ensures Queued(Search(s.queue + [node], s.best[node.state := node.cost], s.serial + 1, s.explored), x)
  {
    var i :| 0 <= i < |s.queue| && s.queue[i].state == x && s.queue[i].cost == s.best[x];
    var t := Search(s.queue + [node], s.best[node.state := node.cost], s.serial + 1, s.explored);
    assert t.queue[i] == s.queue[i];
  }

  lemma PushKeeps(p: Problem, s: Search, node: Node, gone: set<State>)
    requires Inv(p, s, gone) && node.state != p.initial
    requires node.state !in s.best || node.cost < s.best[node.state]
    requires NodeOk(p, s.best[node.state := node.cost], node)
    ensures Inv(p, Search(s.queue + [node], s.best[node.state := node.cost], s.serial + 1, s.explored), gone)
  {
    var t := Search(s.queue + [node], s.best[node.state := node.cost], s.serial + 1, s.explored);
    assert t.queue[|s.queue|] == node;
    assert Queued(t, node.state);
    forall i | 0 <= i < |t.queue| ensures NodeOk(p, t.best, t.queue[i]) {
      if i < |s.queue| { NodeOkLowers(p, s.best, t.best, s.queue[i]); }
    }
    forall x | x in t.best && x != node.state ensures Queued(t, x) || Closed(p, t.best, x) || x in gone {
      if Queued(s, x) {
        QueuedPush(s, node, x);
      } else if Closed(p, s.best, x) {
        ClosedLowers(p, s.best, t.best, x);
      }
    }
  }

  lemma ClosedLowers(p: Problem, best: map<State, nat>, lower: map<State, nat>, x: State)
    requires x in best && Closed(p, best, x) && Lowers(best, lower) && lower[x] == best[x]
    ensures Closed(p, lower, x)
  {
    forall i | 0 <= i < |p.actions| ensures Covers(lower, x, p.actions[i]) {
      assert Covers(best, x, p.actions[i]);
    }
  }

  ghost predicate Relaxed(p: Problem, node: Node, action: Action, s: Search, t: Search, gone: set<State>) {
    && Inv(p, t, gone) && Lowers(s.best, t.best) && NodeOk(p, t.best, node)
    && node.state in t.best && t.best[node.state] == node.cost && Covers(t.best, node.state, action)
  }

  // A push leaves the popped node as it was, and covers the action.
  lemma RelaxLocal(p: Problem, best: map<State, nat>, node: Node, action: Action)
    requires NodeOk(p, best, node) && best[node.state] == node.cost && Satisfies(node.state, action.preconditions)
    requires var next := node.state + action.effects; next !in best || node.cost + action.cost < best[next]
    ensures var lower := best[node.state + action.effects := node.cost + action.cost];
            && Lowers(best, lower) && NodeOk(p, lower, node)
            && lower[node.state] == node.cost && Covers(lower, node.state, action)
  {
    NodeOkLowers(p, best, best[node.state + action.effects := node.cost + action.cost], node);
  }

  function ChildOf(node: Node, action: Action, serial: nat): Node {
    Node(node.cost + action.cost, node.depth + 1, node.path + [action.name], serial, node.state + action.effects)
  }

  lemma RelaxIsPush(node: Node, action: Action, s: Search)
    requires Satisfies(node.state, action.preconditions)
    requires var next := node.state + action.effects; next !in s.best || node.cost + action.cost < s.best[next]
    ensures var child := ChildOf(node, action, s.serial);
            Relax(node, action, s) == Search(s.queue + [child], s.best[child.state := child.cost], s.serial + 1,
                                             s.explored)
  {
  }

  lemma RelaxQueues(p: Problem, node: Node, action: Action, s: Search, gone: set<State>)
    requires UniqueNames(p.actions) && action in p.actions
    requires Inv(p, s, gone) && NodeOk(p, s.best, node) && node.depth < p.maxDepth
    requires Satisfies(node.state, action.preconditions)
    requires var next := node.state + action.effects; next !in s.best || node.cost + action.cost < s.best[next]
    ensures Inv(p, Relax(node, action, s), gone)
  {
    var child := ChildOf(node, action, s.serial);
    RelaxIsPush(node, action, s);
    ChildOk(p, s.best, node, action, s.serial);
    PushKeeps(p, s, child, gone);
  }

  lemma RelaxPushes(p: Problem, node: Node, action: Action, s: Search, gone: set<State>)
    requires UniqueNames(p.actions) && action in p.actions
    requires Inv(p, s, gone) && NodeOk(p, s.best, node) && node.depth < p.maxDepth
    requires s.best[node.state] == node.cost && Satisfies(node.state, action.preconditions)
    requires var next := node.state + action.effects; next !in s.best || node.cost + action.cost < s.best[next]
    ensures Relaxed(p, node, action, s, Relax(node, action, s), gone)
  {
    RelaxIsPush(node, action, s);
    RelaxQueues(p, node, action, s, gone);
    RelaxLocal(p, s.best, node, action);
  }

  lemma RelaxKeeps(p: Problem, node: Node, action: Action, s: Search, gone: set<State>)
    requires UniqueNames(p.actions) && action in p.actions
    requires Inv(p, s, gone) && NodeOk(p, s.best, node) && node.depth < p.maxDepth
    requires s.best[node.state] == node.cost
    ensures Relaxed(p, node, action, s, Relax(node, action, s), gone)
  {
    var next := node.state + action.effects;
    if Satisfies(node.state, action.preconditions) && (next !in s.best || node.cost + action.cost < s.best[next]) {
      RelaxPushes(p, node, action, s, gone);
    }
  }

  lemma {:induction false} ExpandKeeps(p: Problem, node: Node, n: nat, s: Search, gone: set<State>)
    requires UniqueNames(p.actions) && n <= |p.actions|
    requires Inv(p, s, gone) && NodeOk(p, s.best, node) && node.depth < p.maxDepth
    requires s.best[node.state] == node.cost
    ensures var t := Expand(node, p.actions[..n], s);
            && Inv(p, t, gone) && Lowers(s.best, t.best) && NodeOk(p, t.best, node)
            && t.best[node.state] == node.cost
            && forall i :: 0 <= i < n ==> Covers(t.best, node.state, p.actions[i])
  {
    if n > 0 {
      ExpandKeeps(p, node, n - 1, s, gone);
      assert p.actions[..n][..n - 1] == p.actions[..n - 1];
      var before := Expand(node, p.actions[..n - 1], s);
      RelaxKeeps(p, node, p.actions[n - 1], before, gone);
      var t := Expand(node, p.actions[..n], s);
      assert t == Relax(node, p.actions[n - 1], before);
      forall i | 0 <= i < n ensures Covers(t.best, node.state, p.actions[i]) {
        if i < n - 1 { assert Covers(before.best, node.state, p.actions[i]); }
      }
    }
  }

  lemma QueuedWithout(s: Search, k: nat, x: State)
    requires k < |s.queue| && x in s.best && Queued(s, x)
    requires s.queue[k].state != x || s.queue[k].cost != s.best[x]
    ensures Queued(s.(queue := Without(s.queue, k)), x)
  {
    var i :| 0 <= i < |s.queue| && s.queue[i].state == x && s.queue[i].cost == s.best[x];
    assert Without(s.queue, k)[if i < k then i else i - 1] == s.queue[i];
  }

  lemma NodesWithout(p: Problem, best: map<State, nat>, queue: seq<Node>, k: nat)
    requires k < |queue|
    requires forall i :: 0 <= i < |queue| ==> NodeOk(p, best, queue[i])
    ensures forall i :: 0 <= i < |queue| - 1 ==> NodeOk(p, best, Without(queue, k)[i])
  {
    forall i | 0 <= i < |queue| - 1 ensures NodeOk(p, best, Without(queue, k)[i]) {
      assert Without(queue, k)[i] == queue[if i < k then i else i + 1];
    }
  }

  lemma PopKeeps(p: Problem, s: Search, gone: set<State>)
    requires s.queue != [] && Inv(p, s, gone)
    ensures var (node, rest) := Pop(s);
            && NodeOk(p, rest.best, node)
            && Inv(p, rest, if Stale(node, s) then gone else gone + {node.state})
            && (!Stale(node, s) ==> rest.best[node.state] == node.cost)
  {
    var k := MinIndex(s.queue);
    var (node, rest) := Pop(s);
    var more := if Stale(node, s) then gone else gone + {node.state};
    NodesWithout(p, s.best, s.queue, k);
    forall x | x in rest.best ensures Queued(rest, x) || Closed(p, rest.best, x) || x in more {
      if Queued(s, x) && (Stale(node, s) || x != node.state) {
        QueuedWithout(s, k, x);
      }
    }
  }

  lemma ExpandClosesNode(p: Problem, node: Node, s: Search, gone: set<State>)
    requires UniqueNames(p.actions)
    requires Inv(p, s, gone + {node.state}) && NodeOk(p, s.best, node) && node.depth < p.maxDepth
    requires s.best[node.state] == node.cost && !Satisfies(node.state, p.goal)
    ensures Inv(p, Expand(node, p.actions, s), gone)
  {
    ExpandKeeps(p, node, |p.actions|, s, gone + {node.state});
    assert p.actions[..|p.actions|] == p.actions;
    var t := Expand(node, p.actions, s);
    assert Closed(p, t.best, node.state);
    forall x | x in t.best ensures Queued(t, x) || Closed(p, t.best, x) || x in gone {
      assert Queued(t, x) || Closed(p, t.best, x) || x in gone + {node.state};
    }
  }

  // A popped search with the pop counted.
  function Counted(s: Search): Search
    requires s.queue != []
  {
    Pop(s).1.(explored := s.explored + 1)
  }

  lemma StepCases(p: Problem, s: Search)
    requires Step(p, s).Again?
    ensures s.queue != []
    ensures var node := Pop(s).0;
            if Stale(node, s) then Step(p, s).next == Pop(s).1 && !AtDepthBound(p, s)
            else if AtDepthBound(p, s) then Step(p, s).next == Counted(s)
            else node.depth < p.maxDepth && !Satisfies(node.state, p.goal)
                 && Step(p, s).next == Expand(node, p.actions, Counted(s))
  {
  }

  lemma CountedPop(p: Problem, s: Search, gone: set<State>)
    requires Inv(p, s, gone) && s.queue != [] && !Stale(Pop(s).0, s)
    ensures var node := Pop(s).0;
            && Inv(p, Counted(s), gone + {node.state}) && NodeOk(p, Counted(s).best, node)
            && Counted(s).best[node.state] == node.cost
  {
    PopKeeps(p, s, gone);
    InvExplored(p, Pop(s).1, gone + {Pop(s).0.state});
  }

  lemma StepKeeps(p: Problem, s: Search, gone: set<State>)
    requires UniqueNames(p.actions) && Inv(p, s, gone) && Step(p, s).Again?
    ensures Inv(p, Step(p, s).next, if AtDepthBound(p, s) then gone + {Pop(s).0.state} else gone)
  {
    StepCases(p, s);
    var node := Pop(s).0;
    if Stale(node, s) {
      PopKeeps(p, s, gone);
    } else {
      CountedPop(p, s, gone);
      if !AtDepthBound(p, s) { ExpandClosesNode(p, node, Counted(s), gone); }
    }
  }

  lemma InvExplored(p: Problem, s: Search, gone: set<State>)
    requires Inv(p, s, gone)
    ensures Inv(p, s.(explored := s.explored + 1), gone)
  {
    var t := s.(explored := s.explored + 1);
    forall x | x in t.best && Queued(s, x) ensures Queued(t, x) {
      var i :| 0 <= i < |s.queue| && s.queue[i].state == x && s.queue[i].cost == s.best[x];
      assert t.queue[i].state == x;
    }
  }

  /* ---- Optimality and completeness ---- */

  // Along any executable path that avoids the given-up states, either the queue holds
  // an entry no dearer than the path, or the path's end is recorded at no more than its cost.
  lemma {:induction false} Frontier(p: Problem, s: Search, gone: set<State>, path: seq<string>)
    requires UniqueNames(p.actions) && Inv(p, s, gone) && Execute(p, path).Some?
    requires forall i :: 0 <= i < |path| && Execute(p, path[..i]).Some? ==>
                           Execute(p, path[..i]).value.state !in gone
    ensures || (exists i :: 0 <= i < |s.queue| && s.queue[i].cost <= Execute(p, path).value.cost)
            || Recorded(p, s.best, path)
  {
    if path != [] {
      var last := |path| - 1;
      var start := path[..last];
      PrefixExecutes(p, path, last);
      forall i | 0 <= i < last && Execute(p, start[..i]).Some?
        ensures Execute(p, start[..i]).value.state !in gone
      {
        assert start[..i] == path[..i];
      }
      Frontier(p, s, gone, start);
      if !exists i :: 0 <= i < |s.queue| && s.queue[i].cost <= Execute(p, path).value.cost {
        var x := Execute(p, start).value.state;
        FindSound(p.actions, path[last]);
        var action := Find(p.actions, path[last]).value;
        var k :| 0 <= k < |p.actions| && p.actions[k] == action;
        assert !Queued(s, x);
        assert Closed(p, s.best, x);
        assert Covers(s.best, x, p.actions[k]);
      }
    }
  }

  // If the path also achieves the goal, the queue must still hold an entry no dearer.
  lemma GoalFrontier(p: Problem, s: Search, gone: set<State>, path: seq<string>)
    requires UniqueNames(p.actions) && Inv(p, s, gone) && Achieves(p, path)
    requires forall i :: 0 <= i <= |path| && Execute(p, path[..i]).Some? ==>
                           Execute(p, path[..i]).value.state !in gone
    ensures exists i :: 0 <= i < |s.queue| && s.queue[i].cost <= Execute(p, path).value.cost
  {
    Frontier(p, s, gone, path);
    assert path[..|path|] == path;
    if Recorded(p, s.best, path) {
      var x := Execute(p, path).value.state;
      assert !Closed(p, s.best, x);
      assert Queued(s, x);
    }
  }

  // The plan enters a state the search gave up at its depth bound.
  ghost predicate Enters(p: Problem, path: seq<string>, gone: set<State>) {
    exists i :: 0 <= i <= |path| && Execute(p, path[..i]).Some? && Execute(p, path[..i]).value.state in gone
  }

  lemma {:induction false} RunBeats(p: Problem, s: Search, gone: set<State>, path: seq<string>)
    requires UniqueNames(p.actions) && Inv(p, s, gone) && Achieves(p, path)
    requires !Enters(p, path, gone + Dropped(p, s))
    ensures !Run(p, s).Exhausted?
    ensures Run(p, s).Found? ==> Run(p, s).node.cost <= Execute(p, path).value.cost
    decreases p.maxNodes - s.explored, |s.queue|
  {
    match Step(p, s)
    case Stop(_) =>
      GoalFrontier(p, s, gone, path);
    case Again(next) =>
      StepKeeps(p, s, gone);
      var more := if AtDepthBound(p, s) then gone + {Pop(s).0.state} else gone;
      assert more + Dropped(p, next) == gone + Dropped(p, s);
      RunBeats(p, next, more, path);
  }

  lemma {:induction false} RunSound(p: Problem, s: Search, gone: set<State>)
    requires UniqueNames(p.actions) && Inv(p, s, gone)
    ensures Run(p, s).Found? ==>
              var node := Run(p, s).node;
              && Execute(p, node.path) == Some(Arrival(node.state, node.cost))
              && Satisfies(node.state, p.goal) && |node.path| <= p.maxDepth
    ensures s.explored <= p.maxNodes ==> Run(p, s).explored <= p.maxNodes
    decreases p.maxNodes - s.explored, |s.queue|
  {
    match Step(p, s)
    case Stop(_) =>
      if s.queue != [] { PopKeeps(p, s, gone); }
    case Again(next) =>
      StepKeeps(p, s, gone);
      StepExplored(p, s);
      RunSound(p, next, if AtDepthBound(p, s) then gone + {Pop(s).0.state} else gone);
  }

  lemma StepExplored(p: Problem, s: Search)
    requires Step(p, s).Again?
    ensures Step(p, s).next.explored <= s.explored + 1
  {
    var (node, rest) := Pop(s);
    ExpandExplored(node, p.actions, rest.(explored := rest.explored + 1));
  }

  /* ---- Bounds a caller can choose so that nothing is lost ---- */

  // A set of states holding the initial one that no applicable action leaves.
  ghost predicate Closure(p: Problem, reach: set<State>) {
    && p.initial in reach
    && forall x, i :: x in reach && 0 <= i < |p.actions| && Satisfies(x, p.actions[i].preconditions) ==>
                        x + p.actions[i].effects in reach
  }

  lemma {:induction false} ClosureExecutes(p: Problem, reach: set<State>, path: seq<string>)
    requires Closure(p, reach) && Execute(p, path).Some?
    ensures Execute(p, path).value.state in reach
  {
    if path != [] {
      ClosureExecutes(p, reach, path[..|path| - 1]);
      FindSound(p.actions, path[|path| - 1]);
    }
  }

  lemma SubsetSize<T>(a: set<T>, b: set<T>)
    requires a <= b
    ensures |a| <= |b|
  {
    assert b == a + (b - a);
  }

  // The distinct states along the first n steps of a repetition-free path.
  lemma {:induction false} TrailSize(p: Problem, best: map<State, nat>, path: seq<string>, n: nat)
    returns (seen: set<State>)
    requires Trail(p, best, path) && n <= |path|
    ensures |seen| == n + 1
    ensures forall x :: x in seen ==>
                          exists i :: 0 <= i <= n && Execute(p, path[..i]).Some?
                              && Execute(p, path[..i]).value.state == x
  {
    assert Recorded(p, best, path[..n]);
    var x := Execute(p, path[..n]).value.state;
    if n == 0 {
      seen := {x};
    } else {
      seen := TrailSize(p, best, path, n - 1);
      forall y | y in seen ensures y != x {
        var i :| 0 <= i <= n - 1 && Execute(p, path[..i]).Some? && Execute(p, path[..i]).value.state == y;
        assert Apart(p, path[..i], path[..n]);
      }
      seen := seen + {x};
    }
  }

  lemma ShallowNodes(p: Problem, best: map<State, nat>, node: Node, reach: set<State>)
    requires Closure(p, reach) && NodeOk(p, best, node)
    ensures node.depth < |reach|
  {
    var seen := TrailSize(p, best, node.path, |node.path|);
    forall x | x in seen ensures x in reach {
      var i :| 0 <= i <= |node.path| && Execute(p, node.path[..i]).Some? && Execute(p, node.path[..i]).value.state == x;
      ClosureExecutes(p, reach, node.path[..i]);
    }
    SubsetSize(seen, reach);
  }

  /** A depth bound of at least the number of reachable states never cuts a node. */
  lemma {:induction false} NothingDropped(p: Problem, s: Search, gone: set<State>, reach: set<State>)
    requires UniqueNames(p.actions) && Inv(p, s, gone)
    requires Closure(p, reach) && |reach| <= p.maxDepth
    ensures Dropped(p, s) == {}
    decreases p.maxNodes - s.explored, |s.queue|
  {
    match Step(p, s)
    case Stop(_) =>
    case Again(next) =>
      PopKeeps(p, s, gone);
      ShallowNodes(p, s.best, Pop(s).0, reach);
      StepKeeps(p, s, gone);
      NothingDropped(p, next, gone, reach);
  }

  // Each state is expanded at most once: what was expanded is settled below the floor,
  // and the entries still queued cost at least the floor.
  ghost predicate Once(s: Search, expanded: set<State>, floor: nat) {
    && |expanded| == s.explored
    && (forall x :: x in expanded ==> x in s.best && s.best[x] <= floor)
    && (forall i :: 0 <= i < |s.queue| ==> Entry(s.best, expanded, floor, s.queue[i]))
    && (forall i, j :: 0 <= i < j < |s.queue| ==> Differ(s.queue[i], s.queue[j]))
  }

  ghost predicate Entry(best: map<State, nat>, expanded: set<State>, floor: nat, node: Node) {
    && floor <= node.cost
    && node.state in best && best[node.state] <= node.cost
    && (node.state in expanded ==> best[node.state] < node.cost)
  }

  ghost predicate Differ(a: Node, b: Node) {
    a.state == b.state ==> a.cost != b.cost
  }

  lemma OncePop(s: Search, expanded: set<State>, floor: nat)
    requires s.queue != [] && Once(s, expanded, floor)
    ensures var (node, rest) := Pop(s);
            && floor <= node.cost
            && (Stale(node, s) ==> Once(rest, expanded, node.cost))
            && (!Stale(node, s) ==>
                 && node.state !in expanded && s.best[node.state] == node.cost
                 && Once(rest.(explored := s.explored + 1), expanded + {node.state}, node.cost))
  {
    var k := MinIndex(s.queue);
    var (node, rest) := Pop(s);
    assert Entry(s.best, expanded, floor, s.queue[k]);
    var more := if Stale(node, s) then expanded else expanded + {node.state};
    forall i | 0 <= i < |rest.queue| ensures Entry(s.best, more, node.cost, rest.queue[i]) {
      var j := if i < k then i else i + 1;
      assert rest.queue[i] == s.queue[j];
      assert Entry(s.best, expanded, floor, s.queue[j]) && NodeLeq(node, s.queue[j]);
      assert Differ(s.queue[if i < k then j else k], s.queue[if i < k then k else j]);
    }
    forall i, j | 0 <= i < j < |rest.queue| ensures Differ(rest.queue[i], rest.queue[j]) {
      assert rest.queue[i] == s.queue[if i < k then i else i + 1];
      assert rest.queue[j] == s.queue[if j < k then j else j + 1];
    }
  }

  lemma OnceRelax(node: Node, action: Action, s: Search, expanded: set<State>)
    requires Once(s, expanded, node.cost)
    ensures Once(Relax(node, action, s), expanded, node.cost)
  {
    var t := Relax(node, action, s);
    if t != s {
      forall i | 0 <= i < |t.queue| ensures Entry(t.best, expanded, node.cost, t.queue[i]) {
        if i < |s.queue| { assert Entry(s.best, expanded, node.cost, s.queue[i]); }
      }
      forall i, j | 0 <= i < j < |t.queue| ensures Differ(t.queue[i], t.queue[j]) {
        assert Entry(s.best, expanded, node.cost, s.queue[i]);
        if j < |s.queue| { assert Differ(s.queue[i], s.queue[j]); }
      }
    }
  }

  lemma {:induction false} OnceExpand(node: Node, actions: seq<Action>, s: Search, expanded: set<State>)
    requires Once(s, expanded, node.cost)
    ensures Once(Expand(node, actions, s), expanded, node.cost)
  {
    if actions != [] {
      var last := |actions| - 1;
      OnceExpand(node, actions[..last], s, expanded);
      OnceRelax(node, actions[last], Expand(node, actions[..last], s), expanded);
    }
  }

  lemma ReachedOnPop(p: Problem, s: Search, gone: set<State>, reach: set<State>)
    requires Inv(p, s, gone) && s.queue != [] && Closure(p, reach)
    ensures Pop(s).0.state in reach
  {
    PopKeeps(p, s, gone);
    ClosureExecutes(p, reach, Pop(s).0.path);
  }

  lemma OnceStep(p: Problem, s: Search, gone: set<State>, expanded: set<State>, floor: nat, reach: set<State>)
    returns (more: set<State>, higher: nat)
    requires Inv(p, s, gone) && Once(s, expanded, floor) && Closure(p, reach) && expanded <= reach
    requires Step(p, s).Again?
    ensures Once(Step(p, s).next, more, higher) && more <= reach
  {
    StepCases(p, s);
    OncePop(s, expanded, floor);
    var node := Pop(s).0;
    if Stale(node, s) {
      more, higher := expanded, node.cost;
    } else {
      more, higher := expanded + {node.state}, node.cost;
      ReachedOnPop(p, s, gone, reach);
      OnceExpand(node, p.actions, Counted(s), more);
    }
  }

  /** A node bound above the number of reachable states is never what ends the search. */
  lemma {:induction false} NeverBounded(
    p: Problem, s: Search, gone: set<State>, expanded: set<State>, floor: nat, reach: set<State>)
    requires UniqueNames(p.actions) && Inv(p, s, gone) && Once(s, expanded, floor)
    requires Closure(p, reach) && expanded <= reach && |reach| < p.maxNodes
    ensures !Run(p, s).Bounded?
    decreases p.maxNodes - s.explored, |s.queue|
  {
    match Step(p, s)
    case Stop(_) => SubsetSize(expanded, reach);
    case Again(next) =>
      StepKeeps(p, s, gone);
      var more, higher := OnceStep(p, s, gone, expanded, floor, reach);
      NeverBounded(p, next, if AtDepthBound(p, s) then gone + {Pop(s).0.state} else gone, more, higher, reach);
  }

  /* ---- What the caller of the planner may conclude ---- */

  lemma {:induction false} FindPermuted(a: seq<Action>, b: seq<Action>, name: string)
    requires UniqueNames(a) && multiset(a) == multiset(b)
    ensures Find(a, name) == Find(b, name)
  {
    FindSound(a, name);
    FindSound(b, name);
    if Find(a, name).Some? {
      assert Find(a, name).value in multiset(b);
    }
    if Find(b, name).Some? {
      assert Find(b, name).value in multiset(a);
    }
  }

  lemma {:induction false} UniquePermuted(a: seq<Action>, b: seq<Action>)
    requires UniqueNames(a) && multiset(a) == multiset(b)
    ensures UniqueNames(b)
  {
    forall i, j | 0 <= i < j < |b| ensures b[i].name != b[j].name {
      if b[i].name == b[j].name {
        assert b[i] in multiset(a) && b[j] in multiset(a);
        var k :| 0 <= k < |a| && a[k] == b[i];
        var l :| 0 <= l < |a| && a[l] == b[j];
        assert k == l;
        TwiceIn(b, i, j);
        assert multiset(a)[a[k]] >= 2;
        OnceIn(a, k);
        assert false;
      }
    }
  }

  lemma TwiceIn(b: seq<Action>, i: nat, j: nat)
    requires i < j < |b| && b[i] == b[j]
    ensures multiset(b)[b[i]] >= 2
  {
    assert b == b[..j] + [b[j]] + b[j + 1..];
    assert b[..j][i] == b[i];
    assert b[i] in multiset(b[..j]);
  }

  lemma {:induction false} OnceIn(a: seq<Action>, k: nat)
    requires UniqueNames(a) && k < |a|
    ensures multiset(a)[a[k]] == 1
  {
    assert a == a[..k] + [a[k]] + a[k + 1..];
    assert a[k] !in a[..k] && a[k] !in a[k + 1..];
    assert a[k] !in multiset(a[..k]) && a[k] !in multiset(a[k + 1..]);
  }

  lemma {:induction false} ExecuteSame(p: Problem, q: Problem, path: seq<string>)
    requires p.initial == q.initial
    requires forall name :: Find(p.actions, name) == Find(q.actions, name)
    ensures Execute(q, path) == Execute(p, path)
  {
    if path != [] {
      var last := |path| - 1;
      ExecuteSame(p, q, path[..last]);
      assert Find(p.actions, path[last]) == Find(q.actions, path[last]);
    }
  }

  lemma ExecuteOrdered(p: Problem, path: seq<string>)
    requires UniqueNames(p.actions)
    ensures Execute(Ordered(p), path) == Execute(p, path)
  {
    var q := Ordered(p);
    forall name ensures Find(p.actions, name) == Find(q.actions, name) {
      FindPermuted(p.actions, q.actions, name);
    }
    ExecuteSame(p, q, path);
  }

  // The states given up at the depth bound while answering the call.
  ghost function GivenUp(p: Problem): set<State> {
    if PlanOf(p).Err? || Satisfies(p.initial, p.goal) then {} else Dropped(Ordered(p), Start(Ordered(p)))
  }

  lemma OrderedStart(p: Problem)
    requires PlanOf(p).Ok?
    ensures UniqueNames(Ordered(p).actions) && Inv(Ordered(p), Start(Ordered(p)), {})
  {
    UniquePermuted(p.actions, Ordered(p).actions);
    StartInv(Ordered(p));
  }

  /** An achieved plan is executable, reaches the goal in the reported state and costs the sum of its actions. */
  lemma PlanSound(p: Problem)
    requires PlanOf(p).Ok? && PlanOf(p).value.achieved
    ensures var r := PlanOf(p).value;
            && Achieves(p, r.actions)
            && Execute(p, r.actions).value.state == r.finalState
            && r.totalCost == RoundToMicro(Execute(p, r.actions).value.cost)
            && |r.actions| <= p.maxDepth
            && r.exploredNodes <= p.maxNodes
  {
    if !Satisfies(p.initial, p.goal) {
      OrderedStart(p);
      RunSound(Ordered(p), Start(Ordered(p)), {});
      ExecuteOrdered(p, PlanOf(p).value.actions);
    }
  }

  /**
   * No executable plan that avoids the given-up states is cheaper than the answer, or exists when it says there is
   * none.
   */
  lemma PlanOptimal(p: Problem, path: seq<string>)
    requires PlanOf(p).Ok? && Achieves(p, path) && !Enters(p, path, GivenUp(p))
    ensures var r := PlanOf(p).value;
            && r.reason != NoPlan
            && (r.achieved ==>
                 && Execute(p, r.actions).Some?
                 && Execute(p, r.actions).value.cost <= Execute(p, path).value.cost)
  {
    if !Satisfies(p.initial, p.goal) {
      var q := Ordered(p);
      OrderedStart(p);
      ExecuteOrdered(p, path);
      forall i | 0 <= i <= |path| ensures Execute(q, path[..i]) == Execute(p, path[..i]) {
        ExecuteOrdered(p, path[..i]);
      }
      assert {} + Dropped(q, Start(q)) == Dropped(q, Start(q));
      RunBeats(q, Start(q), {}, path);
      RunSound(q, Start(q), {});
      ExecuteOrdered(p, PlanOf(p).value.actions);
    }
  }

  lemma ClosureOrdered(p: Problem, reach: set<State>)
    requires Closure(p, reach)
    ensures Closure(Ordered(p), reach)
  {
    var q := Ordered(p);
    forall x, i | x in reach && 0 <= i < |q.actions| && Satisfies(x, q.actions[i].preconditions)
      ensures x + q.actions[i].effects in reach
    {
      assert q.actions[i] in multiset(p.actions);
      var k :| 0 <= k < |p.actions| && p.actions[k] == q.actions[i];
    }
  }

  /**
    With depth at least, and nodes above, the number of reachable states, the planner decides:
    it finds a plan exactly when one exists, and none of any length is cheaper.
   */
  lemma PlanDecides(p: Problem, reach: set<State>)
    requires UniqueNames(p.actions)
    requires Closure(p, reach) && |reach| <= p.maxDepth && |reach| < p.maxNodes
    ensures PlanOf(p).Ok?
    ensures GivenUp(p) == {}
    ensures PlanOf(p).value.achieved <==> exists path :: Achieves(p, path)
    ensures !PlanOf(p).value.achieved ==> PlanOf(p).value.reason == NoPlan
    ensures PlanOf(p).value.achieved ==>
              forall path :: Achieves(p, path) ==>
                               Execute(p, PlanOf(p).value.actions).Some? &&
                               Execute(p, PlanOf(p).value.actions).value.cost <= Execute(p, path).value.cost
  {
    assert {p.initial} <= reach;
    SubsetSize({p.initial}, reach);
    if !Satisfies(p.initial, p.goal) {
      var q := Ordered(p);
      OrderedStart(p);
      ClosureOrdered(p, reach);
      NothingDropped(q, Start(q), {}, reach);
      NeverBounded(q, Start(q), {}, {}, 0, reach);
    }
    forall path | Achieves(p, path)
      ensures PlanOf(p).value.achieved
      ensures Execute(p, PlanOf(p).value.actions).Some? &&
              Execute(p, PlanOf(p).value.actions).value.cost <= Execute(p, path).value.cost
    {
      PlanOptimal(p, path);
    }
    if PlanOf(p).value.achieved { PlanSound(p); }
  }

  /** The order in which the caller lists the actions has no influence on the answer. */
  lemma PlanIgnoresActionOrder(p: Problem, listed: seq<Action>)
    requires multiset(p.actions) == multiset(listed)
    ensures PlanOf(p.(actions := listed)) == PlanOf(p)
  {
    var other := p.(actions := listed);
    if UniqueNames(p.actions) {
      UniquePermuted(p.actions, listed);
      UniquePermuted(p.actions, Ordered(p).actions);
      assert DistinctKeys(NameOf(), SortBy(NameOf(), p.actions));
      SortIgnoresOrder(NameOf(), p.actions, listed);
      assert Ordered(other) == Ordered(p);
      RunReportsSame(p, other);
    } else if UniqueNames(listed) {
      UniquePermuted(listed, p.actions);
    }
  }

  lemma RunReportsSame(p: Problem, other: Problem)
    requires Ordered(other) == Ordered(p) && other.initial == p.initial
    ensures Report(other, Run(Ordered(other), Start(Ordered(other)))) == Report(p, Run(Ordered(p), Start(Ordered(p))))
  {
  }
}
