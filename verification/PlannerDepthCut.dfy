/**
  A depth bound can make the planner answer that there is no plan although one within the bound
  exists: best costs ignore depth, so a deep cheap entry displaces the shallow dear one.
 */
module PlannerDepthCut {
  import opened Wrappers
  import opened Ordering
  import opened Planner
  import opened PlannerTheorems

  function At(n: int): State { map["at" := Number(n)] }

  function Go(name: string, from: int, to: int, cost: nat): Action {
    Action(name, At(from), At(to), cost)
  }

  // The short way to place 2 is dearer than the long one, and place 3 lies one step behind it.
  const ROUTES: seq<Action> := [Go("a", 0, 1, 1), Go("b", 1, 2, 1), Go("c", 0, 2, 5), Go("d", 2, 3, 1)]

  const CUT: Problem := Problem(At(0), At(3), ROUTES, 2, 256)

  lemma AtFacts(m: int, n: int)
    ensures At(m) + At(n) == At(n)
    ensures Satisfies(At(m), At(n)) <==> m == n
    ensures At(m) == At(n) <==> m == n
  {
    assert "at" in At(n) && At(m)["at"] == Number(m) && At(n)["at"] == Number(n);
  }

  lemma RelaxGo(node: Node, a: Action, at: int, from: int, to: int, cost: nat, s: Search)
    requires node.state == At(at) && a == Go(a.name, from, to, cost)
    ensures at != from ==> Relax(node, a, s) == s
    ensures at == from && At(to) !in s.best ==>
              Relax(node, a, s) == Search(
                s.queue + [Node(node.cost + cost, node.depth + 1, node.path + [a.name], s.serial, At(to))],
                s.best[At(to) := node.cost + cost], s.serial + 1, s.explored)
    ensures at == from && At(to) in s.best && node.cost + cost < s.best[At(to)] ==>
              Relax(node, a, s) == Search(
                s.queue + [Node(node.cost + cost, node.depth + 1, node.path + [a.name], s.serial, At(to))],
                s.best[At(to) := node.cost + cost], s.serial + 1, s.explored)
  {
    AtFacts(at, from);
    AtFacts(at, to);
  }

  lemma ExpandFour(node: Node, a: Action, b: Action, c: Action, d: Action, s: Search)
    ensures Expand(node, [a, b, c, d], s) == Relax(node, d, Relax(node, c, Relax(node, b, Relax(node, a, s))))
  {
    assert [a, b, c, d][..3] == [a, b, c] && [a, b, c][..2] == [a, b] && [a, b][..1] == [a] && [a][..0] == [];
    assert Expand(node, [a], s) == Relax(node, a, s);
    assert Expand(node, [a, b], s) == Relax(node, b, Expand(node, [a], s));
    assert Expand(node, [a, b, c], s) == Relax(node, c, Expand(node, [a, b], s));
  }

  lemma RouteName(i: nat)
    requires i < 4
    ensures |ROUTES[i].name| == 1 && ROUTES[i].name[0] as int == 'a' as int + i
  {
  }

  lemma RoutesSorted()
    ensures UniqueNames(ROUTES) && Ordered(CUT) == CUT
  {
    forall i, j | 0 <= i < j < 4
      ensures ROUTES[i].name != ROUTES[j].name && TextLeq(NameOf()(ROUTES[i]), NameOf()(ROUTES[j]))
    {
      RouteName(i);
      RouteName(j);
    }
    SortSorted(NameOf(), ROUTES);
    SortedUnique(NameOf(), ROUTES, SortBy(NameOf(), ROUTES));
  }

  lemma PopOnly(s: Search)
    requires |s.queue| == 1
    ensures Pop(s) == (s.queue[0], s.(queue := []))
  {
    assert Without(s.queue, 0) == [];
  }

  lemma PopOfTwo(s: Search)
    requires |s.queue| == 2 && s.queue[0].cost != s.queue[1].cost
    ensures s.queue[0].cost < s.queue[1].cost ==> Pop(s) == (s.queue[0], s.(queue := [s.queue[1]]))
    ensures s.queue[1].cost < s.queue[0].cost ==> Pop(s) == (s.queue[1], s.(queue := [s.queue[0]]))
  {
    assert NodeLeq(s.queue[MinIndex(s.queue)], s.queue[0]) && NodeLeq(s.queue[MinIndex(s.queue)], s.queue[1]);
    assert Without(s.queue, 0) == [s.queue[1]] && Without(s.queue, 1) == [s.queue[0]];
  }

  const FIRST := Node(1, 1, ["a"], 1, At(1))
  const SHORT := Node(5, 1, ["c"], 2, At(2))
  const LONG := Node(2, 2, ["a", "b"], 3, At(2))

  const S1 := Search([FIRST, SHORT], map[At(0) := 0, At(1) := 1, At(2) := 5], 3, 1)
  const S2 := Search([SHORT, LONG], map[At(0) := 0, At(1) := 1, At(2) := 2], 4, 2)
  const S3 := Search([SHORT], map[At(0) := 0, At(1) := 1, At(2) := 2], 4, 3)
  const S4 := Search([], map[At(0) := 0, At(1) := 1, At(2) := 2], 4, 3)

  const AFTER_A := Search([FIRST], map[At(0) := 0, At(1) := 1], 2, 1)

  lemma Expand1()
    ensures Expand(Node(0, 0, [], 0, At(0)), ROUTES, Search([], map[At(0) := 0], 1, 1)) == S1
  {
    var node, counted := Node(0, 0, [], 0, At(0)), Search([], map[At(0) := 0], 1, 1);
    AtFacts(0, 1); AtFacts(0, 2); AtFacts(1, 2);
    ExpandFour(node, ROUTES[0], ROUTES[1], ROUTES[2], ROUTES[3], counted);
    assert node.path + ["a"] == ["a"] && node.path + ["c"] == ["c"];
    RelaxGo(node, ROUTES[0], 0, 0, 1, 1, counted);
    RelaxGo(node, ROUTES[1], 0, 1, 2, 1, AFTER_A);
    RelaxGo(node, ROUTES[2], 0, 0, 2, 5, AFTER_A);
    RelaxGo(node, ROUTES[3], 0, 2, 3, 1, S1);
  }

  lemma Step1()
    ensures Step(CUT, Start(CUT)) == Again(S1)
  {
    PopOnly(Start(CUT));
    AtFacts(0, 3);
    Expand1();
  }

  lemma Expand2()
    ensures Expand(FIRST, ROUTES, Search([SHORT], S1.best, 3, 2)) == S2
  {
    var counted := Search([SHORT], S1.best, 3, 2);
    AtFacts(0, 1); AtFacts(0, 2); AtFacts(1, 2);
    ExpandFour(FIRST, ROUTES[0], ROUTES[1], ROUTES[2], ROUTES[3], counted);
    assert FIRST.path + ["b"] == ["a", "b"];
    RelaxGo(FIRST, ROUTES[0], 1, 0, 1, 1, counted);
    RelaxGo(FIRST, ROUTES[1], 1, 1, 2, 1, counted);
    RelaxGo(FIRST, ROUTES[2], 1, 0, 2, 5, S2);
    RelaxGo(FIRST, ROUTES[3], 1, 2, 3, 1, S2);
  }

  lemma Step2()
    ensures Step(CUT, S1) == Again(S2)
  {
    PopOfTwo(S1);
    AtFacts(1, 2); AtFacts(1, 3);
    Expand2();
  }

  lemma Steps34()
    ensures Step(CUT, S2) == Again(S3) && Step(CUT, S3) == Again(S4)
  {
    AtFacts(2, 3);
    AtFacts(0, 2); AtFacts(1, 2);
    PopOfTwo(S2);
    PopOnly(S3);
  }

  lemma OneMore(p: Problem, path: seq<string>, at: Arrival, action: Action)
    requires Execute(p, path) == Some(at)
    requires Find(p.actions, action.name) == Some(action) && Satisfies(at.state, action.preconditions)
    ensures Execute(p, path + [action.name]) == Some(Arrival(at.state + action.effects, at.cost + action.cost))
  {
    assert (path + [action.name])[..|path|] == path;
  }

  lemma FindRoutes()
    ensures Find(CUT.actions, "c") == Some(Go("c", 0, 2, 5))
    ensures Find(CUT.actions, "d") == Some(Go("d", 2, 3, 1))
  {
    RouteName(0); RouteName(1); RouteName(2); RouteName(3);
    assert CUT.actions[1..][1..] == [ROUTES[2], ROUTES[3]];
    assert [ROUTES[2], ROUTES[3]][1..] == [ROUTES[3]];
  }

  lemma ShortPlanWorks()
    ensures Achieves(CUT, ["c", "d"])
  {
    FindRoutes();
    AtFacts(0, 0); AtFacts(0, 2);
    OneMore(CUT, [], Arrival(At(0), 0), Go("c", 0, 2, 5));
    assert [] + ["c"] == ["c"];
    AtFacts(2, 2); AtFacts(2, 3); AtFacts(3, 3);
    OneMore(CUT, ["c"], Arrival(At(2), 5), Go("d", 2, 3, 1));
    assert ["c"] + ["d"] == ["c", "d"];
  }

  lemma RunOn(p: Problem, s: Search, next: Search)
    requires Step(p, s) == Again(next)
    ensures Run(p, s) == Run(p, next)
  {
  }

  lemma CutRun()
    ensures Run(CUT, Start(CUT)) == Exhausted(3)
  {
    Step1();
    Step2();
    Steps34();
    RunOn(CUT, Start(CUT), S1);
    RunOn(CUT, S1, S2);
    RunOn(CUT, S2, S3);
    RunOn(CUT, S3, S4);
  }

  /** The two-step plan c, d is executable and within the depth bound, yet the answer is that there is no plan. */
  lemma DepthCutLosesPlan()
    ensures Achieves(CUT, ["c", "d"]) && |["c", "d"]| <= CUT.maxDepth
    ensures PlanOf(CUT).Ok? && PlanOf(CUT).value.reason == NoPlan
  {
    ShortPlanWorks();
    RoutesSorted();
    AtFacts(0, 3);
    CutRun();
  }
}
