/** Exactly which plans the depth cut can lose. */
module PlannerExact {
  import opened Wrappers
  import opened Planner
  import opened PlannerTheorems

  /* ---- A found plan never enters a state that was given up ---- */

  // The prefix leads to a state that was popped and expanded.
  ghost predicate Passed(p: Problem, prefix: seq<string>, popped: set<State>, gone: set<State>) {
    Execute(p, prefix).Some? && Execute(p, prefix).value.state in popped - gone
  }

  ghost predicate NodePassed(p: Problem, path: seq<string>, popped: set<State>, gone: set<State>) {
    forall i :: 0 <= i < |path| ==> Passed(p, path[..i], popped, gone)
  }

  ghost predicate AllPassed(p: Problem, s: Search, popped: set<State>, gone: set<State>) {
    gone <= popped && forall i :: 0 <= i < |s.queue| ==> NodePassed(p, s.queue[i].path, popped, gone)
  }

  lemma PassedMore(p: Problem, path: seq<string>, popped: set<State>, gone: set<State>, x: State, given: bool)
    requires NodePassed(p, path, popped, gone) && x !in popped
    ensures NodePassed(p, path, popped + {x}, if given then gone + {x} else gone)
  {
    var now := if given then gone + {x} else gone;
    forall i | 0 <= i < |path| ensures Passed(p, path[..i], popped + {x}, now) {
      assert Passed(p, path[..i], popped, gone);
    }
  }

  lemma PopPassed(p: Problem, s: Search, popped: set<State>, gone: set<State>, given: bool)
    requires AllPassed(p, s, popped, gone) && s.queue != []
    ensures AllPassed(p, Pop(s).1, popped, gone)
    ensures var x := Pop(s).0.state;
            x !in popped ==> AllPassed(p, Counted(s), popped + {x}, if given then gone + {x} else gone)
    ensures NodePassed(p, Pop(s).0.path, popped, gone)
  {
    var k := MinIndex(s.queue);
    var x := Pop(s).0.state;
    forall i | 0 <= i < |Pop(s).1.queue| ensures NodePassed(p, Pop(s).1.queue[i].path, popped, gone) {
      assert Pop(s).1.queue[i] == s.queue[if i < k then i else i + 1];
    }
    if x !in popped {
      forall i | 0 <= i < |Counted(s).queue|
        ensures NodePassed(p, Counted(s).queue[i].path, popped + {x}, if given then gone + {x} else gone)
      {
        PassedMore(p, Pop(s).1.queue[i].path, popped, gone, x, given);
      }
    }
  }

  lemma ChildPassed(p: Problem, path: seq<string>, name: string, popped: set<State>, gone: set<State>)
    requires NodePassed(p, path, popped, gone) && Passed(p, path, popped, gone)
    ensures NodePassed(p, path + [name], popped, gone)
  {
    forall i | 0 <= i < |path| + 1 ensures Passed(p, (path + [name])[..i], popped, gone) {
      if i < |path| { assert (path + [name])[..i] == path[..i]; } else { assert (path + [name])[..i] == path; }
    }
  }

  lemma {:induction false} ExpandPassed(p: Problem, node: Node, actions: seq<Action>, s: Search,
                                        popped: set<State>, gone: set<State>)
    requires AllPassed(p, s, popped, gone)
    requires NodePassed(p, node.path, popped, gone) && Passed(p, node.path, popped, gone)
    ensures AllPassed(p, Expand(node, actions, s), popped, gone)
  {
    if actions != [] {
      var front, last := actions[..|actions| - 1], actions[|actions| - 1];
      ExpandPassed(p, node, front, s, popped, gone);
      ChildPassed(p, node.path, last.name, popped, gone);
    }
  }

  lemma PassedStep(p: Problem, s: Search, gone: set<State>, popped: set<State>, floor: nat)
    returns (more: set<State>, higher: nat)
    requires Inv(p, s, gone) && Once(s, popped, floor) && AllPassed(p, s, popped, gone) && Step(p, s).Again?
    ensures var given := if AtDepthBound(p, s) then gone + {Pop(s).0.state} else gone;
            Once(Step(p, s).next, more, higher) && AllPassed(p, Step(p, s).next, more, given)
  {
    StepCases(p, s);
    OncePop(s, popped, floor);
    PopPassed(p, s, popped, gone, AtDepthBound(p, s));
    var node := Pop(s).0;
    if Stale(node, s) {
      more, higher := popped, node.cost;
    } else {
      more, higher := popped + {node.state}, node.cost;
      if !AtDepthBound(p, s) {
        PopKeeps(p, s, gone);
        PassedMore(p, node.path, popped, gone, node.state, false);
        OnceExpand(node, p.actions, Counted(s), more);
        ExpandPassed(p, node, p.actions, Counted(s), more, gone);
      }
    }
  }

  lemma FoundNow(p: Problem, s: Search, gone: set<State>, popped: set<State>, floor: nat)
    requires Inv(p, s, gone) && Once(s, popped, floor) && AllPassed(p, s, popped, gone)
    requires Step(p, s).Stop? && Step(p, s).verdict.Found?
    ensures !Enters(p, Step(p, s).verdict.node.path, gone)
  {
    var node := Pop(s).0;
    OncePop(s, popped, floor);
    PopPassed(p, s, popped, gone, false);
    PopKeeps(p, s, gone);
    forall i | 0 <= i <= |node.path| && Execute(p, node.path[..i]).Some?
      ensures Execute(p, node.path[..i]).value.state !in gone
    {
      if i < |node.path| {
        assert Passed(p, node.path[..i], popped, gone);
      } else {
        assert node.path[..i] == node.path;
      }
    }
  }

  lemma DroppedStop(p: Problem, s: Search, gone: set<State>)
    requires Step(p, s).Stop?
    ensures gone + Dropped(p, s) == gone
  {
  }

  lemma DroppedNext(p: Problem, s: Search, gone: set<State>)
    requires Step(p, s).Again?
    ensures (if AtDepthBound(p, s) then gone + {Pop(s).0.state} else gone) + Dropped(p, Step(p, s).next)
            == gone + Dropped(p, s)
  {
  }

  lemma EntersOrdered(p: Problem, path: seq<string>, gone: set<State>)
    requires UniqueNames(p.actions)
    ensures Enters(Ordered(p), path, gone) <==> Enters(p, path, gone)
  {
    forall i | 0 <= i <= |path| ensures Execute(Ordered(p), path[..i]) == Execute(p, path[..i]) {
      ExecuteOrdered(p, path[..i]);
    }
  }

  lemma {:induction false} FoundAvoids(p: Problem, s: Search, gone: set<State>, popped: set<State>, floor: nat)
    requires UniqueNames(p.actions) && Inv(p, s, gone) && Once(s, popped, floor) && AllPassed(p, s, popped, gone)
    ensures Run(p, s).Found? ==> !Enters(p, Run(p, s).node.path, gone + Dropped(p, s))
    decreases p.maxNodes - s.explored, |s.queue|
  {
    match Step(p, s)
    case Stop(verdict) =>
      DroppedStop(p, s, gone);
      if verdict.Found? { FoundNow(p, s, gone, popped, floor); }
    case Again(next) =>
      var given := if AtDepthBound(p, s) then gone + {Pop(s).0.state} else gone;
      StepKeeps(p, s, gone);
      var more, higher := PassedStep(p, s, gone, popped, floor);
      DroppedNext(p, s, gone);
      FoundAvoids(p, next, given, more, higher);
  }

  lemma AchievedIsFound(p: Problem)
    requires PlanOf(p).Ok? && PlanOf(p).value.achieved && !Satisfies(p.initial, p.goal)
    ensures UniqueNames(p.actions) && GivenUp(p) == Dropped(Ordered(p), Start(Ordered(p)))
    ensures Run(Ordered(p), Start(Ordered(p))).Found?
    ensures PlanOf(p).value.actions == Run(Ordered(p), Start(Ordered(p))).node.path
  {
  }

  lemma NothingPassed(p: Problem)
    ensures Once(Start(p), {}, 0) && AllPassed(p, Start(p), {}, {})
  {
  }

  lemma AchievedAvoids(p: Problem)
    requires PlanOf(p).Ok? && PlanOf(p).value.achieved
    ensures Achieves(p, PlanOf(p).value.actions) && !Enters(p, PlanOf(p).value.actions, GivenUp(p))
  {
    PlanSound(p);
    if !Satisfies(p.initial, p.goal) {
      var q := Ordered(p);
      AchievedIsFound(p);
      OrderedStart(p);
      NothingPassed(q);
      FoundAvoids(q, Start(q), {}, {}, 0);
      assert {} + Dropped(q, Start(q)) == Dropped(q, Start(q));
      EntersOrdered(p, PlanOf(p).value.actions, GivenUp(p));
    }
  }

  /**
   * Unless the node bound ended the search, a plan is found if and only if some executable plan avoids the states given
   * up at the depth bound.
   */
  lemma PlanExact(p: Problem)
    requires PlanOf(p).Ok? && PlanOf(p).value.reason != SearchBoundReached
    ensures PlanOf(p).value.achieved <==> exists path :: Achieves(p, path) && !Enters(p, path, GivenUp(p))
  {
    if PlanOf(p).value.achieved { AchievedAvoids(p); }
    if path :| Achieves(p, path) && !Enters(p, path, GivenUp(p)) { PlanOptimal(p, path); }
  }

  /* ---- Equal costs: depth-bounded completeness ---- */

  predicate UniformCosts(actions: seq<Action>, c: nat) {
    forall i :: 0 <= i < |actions| ==> actions[i].cost == c
  }

  // The cost of n steps.
  function Steps(c: nat, n: nat): nat {
    if n == 0 then 0 else Steps(c, n - 1) + c
  }

  lemma {:induction false} StepsGrow(c: nat, m: nat, n: nat)
    requires m <= n
    ensures Steps(c, m) <= Steps(c, n)
  {
    if m < n { StepsGrow(c, m, n - 1); }
  }

  type Levels = map<State, nat>

  ghost predicate LevelNode(c: nat, level: Levels, floor: nat, node: Node) {
    && node.state in level && level[node.state] == node.depth
    && node.cost == Steps(c, node.depth) && floor <= node.depth
  }

  ghost predicate Waits(queue: seq<Node>, x: State) {
    exists i :: 0 <= i < |queue| && queue[i].state == x
  }

  ghost predicate Leads(level: Levels, x: State, action: Action)
    requires x in level
  {
    Satisfies(x, action.preconditions) ==>
      x + action.effects in level && level[x + action.effects] <= level[x] + 1
  }

  ghost predicate Settled(p: Problem, level: Levels, x: State)
    requires x in level
  {
    !Satisfies(x, p.goal) && forall i :: 0 <= i < |p.actions| ==> Leads(level, x, p.actions[i])
  }

  ghost predicate Known(p: Problem, queue: seq<Node>, level: Levels, done: set<State>, x: State)
    requires x in level
  {
    Waits(queue, x) || Settled(p, level, x) || x in done
  }

  // With equal costs the search goes level by level, and the best cost of a state is that of its level.
  ghost predicate Levelled(c: nat, s: Search, level: Levels, floor: nat) {
    && level.Keys == s.best.Keys
    && (forall i :: 0 <= i < |s.queue| ==> LevelNode(c, level, floor, s.queue[i]))
    && (forall x :: x in level ==> s.best[x] == Steps(c, level[x]) && level[x] <= floor + 1)
  }

  ghost predicate LevelInv(p: Problem, c: nat, s: Search, level: Levels, floor: nat, done: set<State>) {
    && Levelled(c, s, level, floor)
    && p.initial in level && level[p.initial] == 0
    && (forall x :: x in level ==> Known(p, s.queue, level, done, x))
  }

  // The states given up lie at the depth bound.
  ghost predicate Deep(p: Problem, level: Levels, gone: set<State>) {
    forall x :: x in gone ==> x in level && level[x] >= p.maxDepth && !Satisfies(x, p.goal)
  }

  lemma PopLeastDepth(c: nat, s: Search, level: Levels, floor: nat)
    requires Levelled(c, s, level, floor) && s.queue != []
    ensures var node := Pop(s).0;
            && LevelNode(c, level, node.depth, node) && floor <= node.depth && !Stale(node, s)
            && Levelled(c, Pop(s).1, level, node.depth)
  {
    var k := MinIndex(s.queue);
    var node, rest := Pop(s).0, Pop(s).1;
    assert LevelNode(c, level, floor, s.queue[k]);
    forall i | 0 <= i < |rest.queue| ensures LevelNode(c, level, node.depth, rest.queue[i]) {
      var other := s.queue[if i < k then i else i + 1];
      assert rest.queue[i] == other && LevelNode(c, level, floor, other) && NodeLeq(node, other);
      if other.depth < node.depth { StepsGrow(c, other.depth, node.depth); }
    }
  }

  lemma PopKnown(p: Problem, s: Search, level: Levels, done: set<State>)
    requires s.queue != [] && forall x :: x in level ==> Known(p, s.queue, level, done, x)
    ensures forall x :: x in level ==> Known(p, Pop(s).1.queue, level, done + {Pop(s).0.state}, x)
  {
    var k := MinIndex(s.queue);
    var rest := Pop(s).1.queue;
    forall x | x in level ensures Known(p, rest, level, done + {Pop(s).0.state}, x) {
      assert Known(p, s.queue, level, done, x);
      if Waits(s.queue, x) && x != Pop(s).0.state {
        var i :| 0 <= i < |s.queue| && s.queue[i].state == x;
        assert rest[if i < k then i else i - 1].state == x;
      }
    }
  }

  // One level further, for the states not known before.
  function Deeper(level: Levels, node: Node, action: Action): Levels {
    var next := node.state + action.effects;
    if Satisfies(node.state, action.preconditions) && next !in level then level[next := node.depth + 1] else level
  }

  lemma RelaxIsDeeper(c: nat, node: Node, action: Action, s: Search, level: Levels)
    requires Levelled(c, s, level, node.depth) && LevelNode(c, level, node.depth, node) && action.cost == c
    ensures var pushes := Satisfies(node.state, action.preconditions) && node.state + action.effects !in level;
            Relax(node, action, s) ==
              if pushes then Search(s.queue + [ChildOf(node, action, s.serial)],
                                    s.best[node.state + action.effects := Steps(c, node.depth + 1)], s.serial + 1,
                                    s.explored)
              else s
  {
    var next := node.state + action.effects;
    if next in level { StepsGrow(c, level[next], node.depth + 1); }
  }

  lemma RelaxLevelled(c: nat, node: Node, action: Action, s: Search, level: Levels)
    requires Levelled(c, s, level, node.depth) && LevelNode(c, level, node.depth, node) && action.cost == c
    ensures Levelled(c, Relax(node, action, s), Deeper(level, node, action), node.depth)
    ensures LevelNode(c, Deeper(level, node, action), node.depth, node)
    ensures Leads(Deeper(level, node, action), node.state, action)
  {
    RelaxIsDeeper(c, node, action, s, level);
  }

  lemma SettledStays(p: Problem, level: Levels, node: Node, action: Action, x: State)
    requires x in level && Settled(p, level, x)
    ensures Settled(p, Deeper(level, node, action), x)
  {
    forall i | 0 <= i < |p.actions| ensures Leads(Deeper(level, node, action), x, p.actions[i]) {
      assert Leads(level, x, p.actions[i]);
    }
  }

  lemma RelaxKnown(p: Problem, c: nat, node: Node, action: Action, s: Search, level: Levels, done: set<State>)
    requires Levelled(c, s, level, node.depth) && LevelNode(c, level, node.depth, node) && action.cost == c
    requires forall x :: x in level ==> Known(p, s.queue, level, done, x)
    ensures forall x :: x in Deeper(level, node, action) ==>
              Known(p, Relax(node, action, s).queue, Deeper(level, node, action), done, x)
  {
    RelaxIsDeeper(c, node, action, s, level);
    var queue, deeper := Relax(node, action, s).queue, Deeper(level, node, action);
    forall x | x in deeper ensures Known(p, queue, deeper, done, x) {
      if x in level {
        if Settled(p, level, x) { SettledStays(p, level, node, action, x); }
        if Waits(s.queue, x) {
          var i :| 0 <= i < |s.queue| && s.queue[i].state == x;
          assert queue[i].state == x;
        }
      } else {
        assert queue[|s.queue|].state == x;
      }
    }
  }

  ghost predicate LeadsAll(level: Levels, x: State, actions: seq<Action>)
    requires x in level
  {
    forall i :: 0 <= i < |actions| ==> Leads(level, x, actions[i])
  }

  ghost predicate Extends(level: Levels, more: Levels) {
    forall x :: x in level ==> x in more && more[x] == level[x]
  }

  lemma {:induction false} ExpandLevels(p: Problem, c: nat, node: Node, actions: seq<Action>, s: Search, level: Levels,
                                        done: set<State>)
    returns (more: Levels)
    requires Levelled(c, s, level, node.depth) && LevelNode(c, level, node.depth, node) && UniformCosts(actions, c)
    requires forall x :: x in level ==> Known(p, s.queue, level, done, x)
    ensures Extends(level, more) && LevelNode(c, more, node.depth, node)
    ensures Levelled(c, Expand(node, actions, s), more, node.depth)
    ensures forall x :: x in more ==> Known(p, Expand(node, actions, s).queue, more, done, x)
    ensures LeadsAll(more, node.state, actions)
  {
    if actions == [] {
      more := level;
    } else {
      var front, last := actions[..|actions| - 1], actions[|actions| - 1];
      var before := ExpandLevels(p, c, node, front, s, level, done);
      var t := Expand(node, front, s);
      RelaxLevelled(c, node, last, t, before);
      RelaxKnown(p, c, node, last, t, before, done);
      more := Deeper(before, node, last);
      forall i | 0 <= i < |actions| ensures Leads(more, node.state, actions[i]) {
        if i < |front| { assert Leads(before, node.state, front[i]); }
      }
    }
  }

  lemma KnownWithout(p: Problem, queue: seq<Node>, level: Levels, done: set<State>, x: State)
    requires x in level && Settled(p, level, x)
    requires forall y :: y in level ==> Known(p, queue, level, done + {x}, y)
    ensures forall y :: y in level ==> Known(p, queue, level, done, y)
  {
    forall y | y in level ensures Known(p, queue, level, done, y) {
      assert Known(p, queue, level, done + {x}, y);
    }
  }

  lemma LevelStep(p: Problem, c: nat, s: Search, level: Levels, floor: nat, gone: set<State>)
    returns (more: Levels, higher: nat, given: set<State>)
    requires UniformCosts(p.actions, c) && LevelInv(p, c, s, level, floor, gone) && Deep(p, level, gone)
    requires Step(p, s).Again?
    ensures LevelInv(p, c, Step(p, s).next, more, higher, given) && Deep(p, more, given)
  {
    StepCases(p, s);
    PopLeastDepth(c, s, level, floor);
    PopKnown(p, s, level, gone);
    var node := Pop(s).0;
    higher := node.depth;
    if AtDepthBound(p, s) {
      more, given := level, gone + {node.state};
      assert !Satisfies(node.state, p.goal);
    } else {
      given := gone;
      more := ExpandLevels(p, c, node, p.actions, Counted(s), level, gone + {node.state});
      KnownWithout(p, Expand(node, p.actions, Counted(s)).queue, more, gone, node.state);
    }
  }

  // With nothing left to pop, a short path leads to a state of at most its length as level.
  lemma {:induction false} ShortPathsKnown(p: Problem, c: nat, s: Search, level: Levels, floor: nat, gone: set<State>,
                                           path: seq<string>)
    requires LevelInv(p, c, s, level, floor, gone) && Deep(p, level, gone) && s.queue == []
    requires Execute(p, path).Some? && |path| <= p.maxDepth
    ensures Execute(p, path).value.state in level && level[Execute(p, path).value.state] <= |path|
  {
    if path != [] {
      var front, name := path[..|path| - 1], path[|path| - 1];
      ShortPathsKnown(p, c, s, level, floor, gone, front);
      var x := Execute(p, front).value.state;
      assert Known(p, s.queue, level, gone, x) && Settled(p, level, x);
      FindSound(p.actions, name);
      var k :| 0 <= k < |p.actions| && p.actions[k] == Find(p.actions, name).value;
      assert Leads(level, x, p.actions[k]);
    }
  }

  lemma NoShortPlan(p: Problem, c: nat, s: Search, level: Levels, floor: nat, gone: set<State>, path: seq<string>)
    requires LevelInv(p, c, s, level, floor, gone) && Deep(p, level, gone) && s.queue == [] && |path| <= p.maxDepth
    ensures !Achieves(p, path)
  {
    if Execute(p, path).Some? {
      ShortPathsKnown(p, c, s, level, floor, gone, path);
      assert Known(p, s.queue, level, gone, Execute(p, path).value.state);
    }
  }

  lemma {:induction false} ShortPlansFound(p: Problem, c: nat, s: Search, level: Levels, floor: nat, gone: set<State>,
                                           path: seq<string>)
    requires UniformCosts(p.actions, c) && LevelInv(p, c, s, level, floor, gone) && Deep(p, level, gone)
    requires Achieves(p, path) && |path| <= p.maxDepth
    ensures !Run(p, s).Exhausted?
    decreases p.maxNodes - s.explored, |s.queue|
  {
    match Step(p, s)
    case Stop(_) =>
      if s.queue == [] { NoShortPlan(p, c, s, level, floor, gone, path); }
    case Again(next) =>
      var more, higher, given := LevelStep(p, c, s, level, floor, gone);
      ShortPlansFound(p, c, next, more, higher, given, path);
  }

  lemma LevelStart(p: Problem, c: nat)
    ensures LevelInv(p, c, Start(p), map[p.initial := 0], 0, {}) && Deep(p, map[p.initial := 0], {})
  {
    assert Start(p).queue[0].state == p.initial;
    assert Waits(Start(p).queue, p.initial);
  }

  lemma UniformOrdered(p: Problem, c: nat)
    requires UniformCosts(p.actions, c)
    ensures UniformCosts(Ordered(p).actions, c)
  {
    forall i | 0 <= i < |Ordered(p).actions| ensures Ordered(p).actions[i].cost == c {
      assert Ordered(p).actions[i] in multiset(p.actions);
    }
  }

  /**
   * When all actions cost the same, and unless the node bound ended the search, a plan is found if and only if one of
   * at most the given depth exists.
   */
  lemma EqualCostsDecide(p: Problem, c: nat)
    requires UniformCosts(p.actions, c) && PlanOf(p).Ok? && PlanOf(p).value.reason != SearchBoundReached
    ensures PlanOf(p).value.achieved <==> exists path :: Achieves(p, path) && |path| <= p.maxDepth
  {
    if PlanOf(p).value.achieved { PlanSound(p); }
    if path :| Achieves(p, path) && |path| <= p.maxDepth {
      if !Satisfies(p.initial, p.goal) {
        var q := Ordered(p);
        ExecuteOrdered(p, path);
        UniformOrdered(p, c);
        LevelStart(q, c);
        ShortPlansFound(q, c, Start(q), map[q.initial := 0], 0, {}, path);
      }
    }
  }

  /** For which it is enough that the node bound exceeds the number of reachable states. */
  lemma EqualCostsDecideReachable(p: Problem, c: nat, reach: set<State>)
    requires UniqueNames(p.actions) && UniformCosts(p.actions, c) && 0 <= p.maxDepth
    requires Closure(p, reach) && |reach| < p.maxNodes
    ensures PlanOf(p).Ok?
    ensures PlanOf(p).value.achieved <==> exists path :: Achieves(p, path) && |path| <= p.maxDepth
  {
    if !Satisfies(p.initial, p.goal) {
      var q := Ordered(p);
      OrderedStart(p);
      ClosureOrdered(p, reach);
      NeverBounded(q, Start(q), {}, {}, 0, reach);
    }
    EqualCostsDecide(p, c);
  }

  /* ---- The rest of the answer ---- */

  /** A requirement is met by an equal value, and one that asks for nothing also by a key that is not there. */
  lemma SatisfiesMeans(state: State, requirements: State)
    ensures Satisfies(state, requirements) <==>
            forall key :: key in requirements ==>
              (key in state && state[key] == requirements[key]) || (key !in state && requirements[key] == Null)
  {
    forall key | key in requirements
      ensures Lookup(state, key) == requirements[key] <==>
              (key in state && state[key] == requirements[key]) || (key !in state && requirements[key] == Null) {}
  }

  /** The reported cost is the nearest with six decimals, and of two equally near ones the even one. */
  lemma ReportedCostIsNearest(cost: nat)
    ensures var r := RoundToMicro(cost);
            && r % 1000 == 0 && r <= cost + 500 && cost <= r + 500
            && (r == cost + 500 || cost == r + 500 ==> r / 1000 % 2 == 0)
  {
  }

  lemma {:induction false} BoundedIsFull(p: Problem, s: Search)
    requires s.explored <= p.maxNodes
    ensures Run(p, s).explored <= p.maxNodes
    ensures Run(p, s).Bounded? ==> Run(p, s).explored == p.maxNodes
    decreases p.maxNodes - s.explored, |s.queue|
  {
    match Step(p, s)
    case Stop(_) =>
    case Again(next) =>
      StepExplored(p, s);
      BoundedIsFull(p, next);
  }

  /**
   * Calls with a negative depth bound, without nodes, or with two actions of one name are refused. An answer without a
   * plan leaves the state as it was, and blames the node bound only when that many nodes were explored.
   */
  lemma PlanAnswers(p: Problem)
    ensures PlanOf(p).Err? <==> p.maxDepth < 0 || p.maxNodes < 1 || !UniqueNames(p.actions)
    ensures PlanOf(p).Ok? && !PlanOf(p).value.achieved ==>
              var r := PlanOf(p).value;
              && r.actions == [] && r.totalCost == 0 && r.finalState == p.initial
              && (r.reason == NoPlan || (r.reason == SearchBoundReached && r.exploredNodes == p.maxNodes))
    ensures PlanOf(p).Ok? && Satisfies(p.initial, p.goal) ==>
              PlanOf(p).value.achieved && PlanOf(p).value.actions == [] && PlanOf(p).value.exploredNodes == 0
  {
    if PlanOf(p).Ok? && !Satisfies(p.initial, p.goal) { BoundedIsFull(Ordered(p), Start(Ordered(p))); }
  }
}
