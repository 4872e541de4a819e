/** The bounded uniform-cost GOAP planner: the search as functions, and the loop that runs it. */
module Planner {
  import opened Wrappers
  import opened Ordering

  datatype Value = Null | Flag(b: bool) | Number(n: int) | Text(s: string)

  type State = map<string, Value>

  // Costs are counted in units of 1e-9, the precision the planner rounds them to.
  datatype Action = Action(name: string, preconditions: State, effects: State, cost: nat)

  datatype Problem = Problem(initial: State, goal: State, actions: seq<Action>, maxDepth: int, maxNodes: int)

  datatype Reason = GoalAlreadySatisfied | GoalReached | SearchBoundReached | NoPlan

  datatype PlanResult = PlanResult(
    achieved: bool, actions: seq<string>, totalCost: nat, exploredNodes: nat, finalState: State, reason: Reason)

  datatype PlanError = NegativeDepth | NoNodes | DuplicateNames

  function Lookup(state: State, key: string): Value {
    if key in state then state[key] else Null
  }

  predicate Satisfies(state: State, requirements: State) {
    forall key :: key in requirements ==> Lookup(state, key) == requirements[key]
  }

  predicate UniqueNames(actions: seq<Action>) {
    forall i, j :: 0 <= i < j < |actions| ==> actions[i].name != actions[j].name
  }

  function NameOf(): Action -> string { (a: Action) => a.name }

  // Rounds half to even to a multiple of 1000, that is from nine decimals to six.
  function RoundToMicro(cost: nat): nat {
    var low := cost / 1000;
    var rest := cost % 1000;
    1000 * (if rest < 500 || (rest == 500 && low % 2 == 0) then low else low + 1)
  }

  /* ---- The priority queue ---- */

  datatype Node = Node(cost: nat, depth: nat, path: seq<string>, serial: nat, state: State)

  predicate PathLeq(a: seq<string>, b: seq<string>) {
    || a == []
    || (b != [] && (if a[0] == b[0] then PathLeq(a[1..], b[1..]) else TextLeq(a[0], b[0])))
  }

  // Tuple order of the heap entries. Entries with equal paths hold equal states, so the
  // state key between path and serial never decides.
  predicate NodeLeq(a: Node, b: Node) {
    if a.cost != b.cost then a.cost < b.cost
    else if a.depth != b.depth then a.depth < b.depth
    else if a.path != b.path then PathLeq(a.path, b.path)
    else a.serial <= b.serial
  }

  lemma {:induction false} PathTransitive(a: seq<string>, b: seq<string>, c: seq<string>)
    requires PathLeq(a, b) && PathLeq(b, c)
    ensures PathLeq(a, c)
  {
    if a != [] {
      if a[0] == b[0] && b[0] == c[0] {
        PathTransitive(a[1..], b[1..], c[1..]);
      } else if a[0] != b[0] && b[0] != c[0] {
        TextTransitive(a[0], b[0], c[0]);
        if a[0] == c[0] { TextAntisymmetric(a[0], b[0]); }
      }
    }
  }

  lemma {:induction false} PathTotal(a: seq<string>, b: seq<string>)
    ensures PathLeq(a, b) || PathLeq(b, a)
    ensures PathLeq(a, b) && PathLeq(b, a) ==> a == b
  {
    if a != [] && b != [] {
      if a[0] == b[0] {
        PathTotal(a[1..], b[1..]);
        assert a == [a[0]] + a[1..] && b == [b[0]] + b[1..];
      } else {
        TextTotal(a[0], b[0]);
        if TextLeq(a[0], b[0]) && TextLeq(b[0], a[0]) { TextAntisymmetric(a[0], b[0]); }
      }
    }
  }

  lemma NodeTransitive(a: Node, b: Node, c: Node)
    requires NodeLeq(a, b) && NodeLeq(b, c)
    ensures NodeLeq(a, c)
  {
    if a.cost == b.cost == c.cost && a.depth == b.depth == c.depth && a.path != b.path && b.path != c.path {
      PathTransitive(a.path, b.path, c.path);
      PathTotal(a.path, b.path);
    }
  }

  lemma NodeTotal(a: Node, b: Node)
    ensures NodeLeq(a, b) || NodeLeq(b, a)
  {
    PathTotal(a.path, b.path);
  }

  /** Position of the least entry: what popping the heap removes. */
  function MinIndex(queue: seq<Node>): (least: nat)
    requires queue != []
    ensures least < |queue|
    ensures forall j :: 0 <= j < |queue| ==> NodeLeq(queue[least], queue[j])
  {
    if |queue| == 1 then 0
    else
      var last := |queue| - 1;
      var i := MinIndex(queue[..last]);
      NodeTotal(queue[i], queue[last]);
      if NodeLeq(queue[i], queue[last]) then
        i
      else
        assert forall j :: 0 <= j < last ==> NodeLeq(queue[last], queue[j]) by {
          forall j | 0 <= j < last ensures NodeLeq(queue[last], queue[j]) {
            assert queue[..last][j] == queue[j];
            NodeTransitive(queue[last], queue[i], queue[j]);
          }
        }
        last
  }

  function Without(queue: seq<Node>, i: nat): seq<Node>
    requires i < |queue|
  {
    queue[..i] + queue[i + 1..]
  }

  /* ---- The search, one pop at a time ---- */

  datatype Search = Search(queue: seq<Node>, best: map<State, nat>, serial: nat, explored: nat)

  datatype Verdict = Found(node: Node, explored: nat) | Exhausted(explored: nat) | Bounded(explored: nat)

  datatype Outcome = Stop(verdict: Verdict) | Again(next: Search)

  // One action tried from one popped node: skipped, dominated, or pushed with a better cost.
  function Relax(node: Node, action: Action, s: Search): Search {
    if !Satisfies(node.state, action.preconditions) then s
    else
      var next := node.state + action.effects;
      var cost := node.cost + action.cost;
      if next in s.best && s.best[next] <= cost then s
      else
        Search(
          s.queue + [Node(cost, node.depth + 1, node.path + [action.name], s.serial, next)],
          s.best[next := cost], s.serial + 1, s.explored)
  }

  function Expand(node: Node, actions: seq<Action>, s: Search): Search {
    if actions == [] then s
    else
      var last := |actions| - 1;
      Relax(node, actions[last], Expand(node, actions[..last], s))
  }

  lemma {:induction false} ExpandExplored(node: Node, actions: seq<Action>, s: Search)
    ensures Expand(node, actions, s).explored == s.explored
  {
    if actions != [] { ExpandExplored(node, actions[..|actions| - 1], s); }
  }

  function Pop(s: Search): (Node, Search)
    requires s.queue != []
  {
    var i := MinIndex(s.queue);
    (s.queue[i], s.(queue := Without(s.queue, i)))
  }

  predicate Stale(node: Node, s: Search) {
    node.state in s.best && s.best[node.state] < node.cost
  }

  function Step(p: Problem, s: Search): (o: Outcome)
    ensures o.Again? ==> s.explored < p.maxNodes && s.explored <= o.next.explored
    ensures o.Again? ==> o.next.explored > s.explored || |o.next.queue| < |s.queue|
  {
    if s.queue == [] then Stop(Exhausted(s.explored))
    else if s.explored >= p.maxNodes then Stop(Bounded(s.explored))
    else
      var (node, rest) := Pop(s);
      if Stale(node, s) then Again(rest)
      else
        var counted := rest.(explored := rest.explored + 1);
        if Satisfies(node.state, p.goal) then Stop(Found(node, counted.explored))
        else if node.depth >= p.maxDepth then Again(counted)
        else
          ExpandExplored(node, p.actions, counted);
          Again(Expand(node, p.actions, counted))
  }

  function Run(p: Problem, s: Search): Verdict
    decreases p.maxNodes - s.explored, |s.queue|
  {
    match Step(p, s)
    case Stop(verdict) => verdict
    case Again(next) => Run(p, next)
  }

  function Start(p: Problem): Search {
    Search([Node(0, 0, [], 0, p.initial)], map[p.initial := 0], 1, 0)
  }

  // The states dropped unexpanded at the depth bound during the rest of the search.
  ghost function Dropped(p: Problem, s: Search): set<State>
    decreases p.maxNodes - s.explored, |s.queue|
  {
    match Step(p, s)
    case Stop(_) => {}
    case Again(next) =>
      (if AtDepthBound(p, s) then {Pop(s).0.state} else {}) + Dropped(p, next)
  }

  ghost predicate AtDepthBound(p: Problem, s: Search) {
    s.queue != [] && !Stale(Pop(s).0, s) && Pop(s).0.depth >= p.maxDepth
  }

  function Ordered(p: Problem): Problem {
    p.(actions := SortBy(NameOf(), p.actions))
  }

  function Report(p: Problem, verdict: Verdict): PlanResult {
    match verdict
    case Found(node, explored) =>
      PlanResult(true, node.path, RoundToMicro(node.cost), explored, node.state, GoalReached)
    case Exhausted(explored) => PlanResult(false, [], 0, explored, p.initial, NoPlan)
    case Bounded(explored) => PlanResult(false, [], 0, explored, p.initial, SearchBoundReached)
  }

  function PlanOf(p: Problem): Result<PlanResult, PlanError> {
    if p.maxDepth < 0 then Err(NegativeDepth)
    else if p.maxNodes < 1 then Err(NoNodes)
    else if !UniqueNames(p.actions) then Err(DuplicateNames)
    else if Satisfies(p.initial, p.goal) then
      Ok(PlanResult(true, [], 0, 0, p.initial, GoalAlreadySatisfied))
    else Ok(Report(p, Run(Ordered(p), Start(Ordered(p)))))
  }

  /* ---- The loop itself ---- */

  method PopLeast(queue: seq<Node>) returns (node: Node, rest: seq<Node>)
    requires queue != []
    ensures node == queue[MinIndex(queue)]
    ensures rest == Without(queue, MinIndex(queue))
  {
    var least := 0;
    var i := 1;
    while i < |queue|
      invariant 1 <= i <= |queue|
      invariant least == MinIndex(queue[..i])
    {
      assert queue[..i + 1][..i] == queue[..i];
      if !NodeLeq(queue[least], queue[i]) {
        least := i;
      }
      i := i + 1;
    }
    assert queue[..i] == queue;
    node, rest := queue[least], queue[..least] + queue[least + 1..];
  }

  method PushSuccessors(node: Node, actions: seq<Action>, s: Search) returns (grown: Search)
    ensures grown == Expand(node, actions, s)
  {
    var queue: seq<Node>, best: map<State, nat>, serial: nat := s.queue, s.best, s.serial;
    var i := 0;
    while i < |actions|
      invariant 0 <= i <= |actions|
      invariant Search(queue, best, serial, s.explored) == Expand(node, actions[..i], s)
    {
      assert actions[..i + 1][..i] == actions[..i];
      var action := actions[i];
      i := i + 1;
      if !Satisfies(node.state, action.preconditions) { continue; }
      var next := node.state + action.effects;
      var cost := node.cost + action.cost;
      if next in best && best[next] <= cost { continue; }
      best := best[next := cost];
      queue := queue + [Node(cost, node.depth + 1, node.path + [action.name], serial, next)];
      serial := serial + 1;
    }
    assert actions[..i] == actions;
    grown := Search(queue, best, serial, s.explored);
  }

  // One turn of the loop: pop, count, report or expand.
  method Turn(q: Problem, s: Search) returns (o: Outcome)
    requires s.queue != [] && s.explored < q.maxNodes
    ensures o == Step(q, s)
  {
    var node, queue := PopLeast(s.queue);
    var rest := s.(queue := queue);
    if node.state in s.best && s.best[node.state] < node.cost { return Again(rest); }
    var counted := rest.(explored := rest.explored + 1);
    if Satisfies(node.state, q.goal) { return Stop(Found(node, counted.explored)); }
    if node.depth >= q.maxDepth { return Again(counted); }
    ExpandExplored(node, q.actions, counted);
    var grown := PushSuccessors(node, q.actions, counted);
    return Again(grown);
  }

  /** The planner's loop computes exactly the verdict of the search above. */
  method Plan(p: Problem) returns (r: Result<PlanResult, PlanError>)
    ensures r == PlanOf(p)
  {
    if p.maxDepth < 0 { return Err(NegativeDepth); }
    if p.maxNodes < 1 { return Err(NoNodes); }
    if !UniqueNames(p.actions) { return Err(DuplicateNames); }
    if Satisfies(p.initial, p.goal) {
      return Ok(PlanResult(true, [], 0, 0, p.initial, GoalAlreadySatisfied));
    }
    var q := p.(actions := SortBy(NameOf(), p.actions));
    var s := Start(q);
    while s.queue != [] && s.explored < p.maxNodes
      invariant Run(q, Start(q)) == Run(q, s)
      decreases p.maxNodes - s.explored, |s.queue|
    {
      var o := Turn(q, s);
      if o.Stop? { return Ok(Report(p, o.verdict)); }
      s := o.next;
    }
    return Ok(PlanResult(
      false, [], 0, s.explored, p.initial, if s.queue != [] then SearchBoundReached else NoPlan));
  }
}
