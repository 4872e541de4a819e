/** Two runs from an empty outbox that end with two beliefs in force under one key. */
module ProjectorRuns {
  import opened Wrappers
  import opened TextSets
  import opened Beliefs
  import opened BeliefRuns
  import opened Projector
  import opened ProjectorTheorems
  import opened ProjectorMinds
  import opened ProjectorRaces
  import KernelState

  const OBSERVER: nat := 7

  const KEY := "door"

  // Event 1 says that the door is open, event 2 that it is not.
  function Seen(event: nat): Observation {
    Observation(event, OBSERVER, event, ONE, event)
  }

  function Said(event: nat): Claim {
    Claim.Claim(KEY, KernelState.Flag(event == 1), ONE)
  }

  function Showing(event: nat): Grant {
    Grant(true, OBSERVER, Seen(event), Some([Said(event)]))
  }

  function RowOf(event: nat, published: bool, lease: Option<Lease>): Row {
    Row([Showing(event)], published, lease, 0, 0)
  }

  const START: State := State(0, map[1 := RowOf(1, false, None), 2 := RowOf(2, false, None)], map[], map[], map[])

  const NOTHING: Snapshot := Snapshot(map[], {})

  function First(name: Naming): Belief {
    Formed(name, Seen(1), Said(1))
  }

  lemma {:induction false} RanSnoc(name: Naming, s: State, steps: seq<Step>, step: Step)
    requires Can(Ran(name, s, steps), step)
    ensures Ran(name, s, steps + [step]) == Next(name, Ran(name, s, steps), step)
    decreases |steps|
  {
    if steps == [] {
      assert [step][1..] == [];
      assert Ran(name, Next(name, s, step), []) == Next(name, s, step);
    } else {
      assert (steps + [step])[1..] == steps[1..] + [step];
      RanSnoc(name, if Can(s, steps[0]) then Next(name, s, steps[0]) else s, steps[1..], step);
    }
  }

  ghost predicate Takes(name: Naming, s: State, step: Step, t: State) {
    Can(s, step) && Next(name, s, step) == t
  }

  lemma RanTwo(name: Naming, s: State, steps: seq<Step>, x: Step, b: State, y: Step, c: State)
    requires Takes(name, Ran(name, s, steps), x, b) && Takes(name, b, y, c)
    ensures Ran(name, s, steps + [x, y]) == c
  {
    RanSnoc(name, s, steps, x);
    RanSnoc(name, s, steps + [x], y);
    assert steps + [x] + [y] == steps + [x, y];
  }

  lemma RanThree(name: Naming, s: State, steps: seq<Step>, x: Step, b: State, y: Step, c: State, z: Step, d: State)
    requires Takes(name, Ran(name, s, steps), x, b) && Takes(name, b, y, c) && Takes(name, c, z, d)
    ensures Ran(name, s, steps + [x, y, z]) == d
  {
    RanTwo(name, s, steps, x, b, y, c);
    RanSnoc(name, s, steps + [x, y], z);
    assert steps + [x, y] + [z] == steps + [x, y, z];
  }

  /* ---- Two workers load the same empty mind ---- */

  const RACE: seq<Step> := [Step.Claim(1, [1]), Step.Claim(2, [2])] + [Load(1), Load(2)]

  function Racing(loaded: Option<Snapshot>, other: Option<Snapshot>): State {
    START.(rows := map[1 := RowOf(1, false, Some(Lease(1, 0))), 2 := RowOf(2, false, Some(Lease(2, 0)))],
           jobs := map[1 := Job([1], 0, loaded), 2 := Job([2], 0, other)])
  }

  // Worker 1 has claimed the first row at the start.
  function Alert(now: nat, loaded: Option<Snapshot>): State {
    START.(now := now, rows := map[1 := RowOf(1, false, Some(Lease(1, 0))), 2 := RowOf(2, false, None)],
           jobs := map[1 := Job([1], 0, loaded)])
  }

  lemma FirstClaim(name: Naming)
    ensures Takes(name, START, Step.Claim(1, [1]), Alert(0, None))
  {
    assert Claimed(START, 1, [1]) == Alert(0, None).rows;
  }

  lemma SecondClaim(name: Naming)
    ensures Takes(name, Alert(0, None), Step.Claim(2, [2]), Racing(None, None))
  {
    assert Claimed(Alert(0, None), 2, [2]) == Racing(None, None).rows;
  }

  lemma RaceLoads(name: Naming)
    ensures Takes(name, Racing(None, None), Load(1), Racing(Some(NOTHING), None))
    ensures Takes(name, Racing(Some(NOTHING), None), Load(2), Racing(Some(NOTHING), Some(NOTHING)))
  {
  }

  lemma Raced(name: Naming)
    ensures Ran(name, START, RACE) == Racing(Some(NOTHING), Some(NOTHING))
  {
    FirstClaim(name);
    SecondClaim(name);
    RaceLoads(name);
    RanTwo(name, START, [], Step.Claim(1, [1]), Alert(0, None), Step.Claim(2, [2]), Racing(None, None));
    assert [] + [Step.Claim(1, [1]), Step.Claim(2, [2])] == [Step.Claim(1, [1]), Step.Claim(2, [2])];
    RanTwo(name, START, [Step.Claim(1, [1]), Step.Claim(2, [2])], Load(1), Racing(Some(NOTHING), None),
           Load(2), Racing(Some(NOTHING), Some(NOTHING)));
  }

  lemma RaceIsOn()
    ensures var s := Racing(Some(NOTHING), Some(NOTHING));
            && AboutToSave(s, 1, OBSERVER, KEY, Said(1).value) && AboutToSave(s, 2, OBSERVER, KEY, Said(2).value)
            && ShelfOf(s, OBSERVER) == map[]
  {
  }

  /** From an empty outbox, two workers that load before either saves leave two beliefs in force under one key. */
  lemma RaceFromFresh(name: Naming)
    requires Injective(name)
    ensures Fresh(START) && START.shelves == map[]
    ensures TwoInForce(Listing(ShelfOf(Ran(name, START, RACE + [Decide(1), Decide(2)]), OBSERVER)), KEY)
  {
    var s := Racing(Some(NOTHING), Some(NOTHING));
    Raced(name);
    RaceIsOn();
    RacingSavesLeaveTwo(name, s, 1, 2, OBSERVER, KEY, Said(1).value, Said(2).value);
    var t := Next(name, s, Decide(1));
    RanTwo(name, START, RACE, Decide(1), t, Decide(2), Next(name, t, Decide(2)));
  }

  /* ---- A worker keeps its copy beyond its lease ---- */

  const OVERTAKEN: seq<Step> := [Step.Claim(1, [1]), Load(1)] + [Tick(301), Step.Claim(2, [1, 2])]

  const ROUND: seq<Step> := [Load(2), Decide(2), Complete(2)]

  const PROJECTED: seq<Step> := OVERTAKEN + ROUND + ROUND

  function LateRow(event: nat, done: nat): Row {
    RowOf(event, event <= done, if event <= done then None else Some(Lease(2, 301)))
  }

  // Worker 1 still holds the empty copy; worker 2 has both rows and does what `job` says.
  function Late(done: nat, shelves: map<nat, Shelf>, stored: map<nat, set<nat>>, job: Job): State {
    State(301, map[1 := LateRow(1, done), 2 := LateRow(2, done)], shelves, stored,
          map[1 := Job([1], 0, Some(NOTHING)), 2 := job])
  }

  lemma LoadsEarly(name: Naming)
    ensures Takes(name, Alert(0, None), Load(1), Alert(0, Some(NOTHING)))
    ensures Takes(name, Alert(0, Some(NOTHING)), Tick(301), Alert(301, Some(NOTHING)))
  {
  }

  lemma LateClaim(name: Naming)
    ensures Takes(name, Alert(301, Some(NOTHING)), Step.Claim(2, [1, 2]), Late(0, map[], map[], Job([1, 2], 0, None)))
  {
    var s := Alert(301, Some(NOTHING));
    assert Claimed(s, 2, [1, 2]) == map[1 := LateRow(1, 0), 2 := LateRow(2, 0)];
    assert s.jobs[2 := Job([1, 2], 0, None)] == map[1 := Job([1], 0, Some(NOTHING)), 2 := Job([1, 2], 0, None)];
  }

  lemma Overtaken(name: Naming)
    ensures Ran(name, START, OVERTAKEN) == Late(0, map[], map[], Job([1, 2], 0, None))
  {
    var s := Alert(0, Some(NOTHING));
    FirstClaim(name);
    LoadsEarly(name);
    LateClaim(name);
    RanTwo(name, START, [], Step.Claim(1, [1]), Alert(0, None), Load(1), s);
    assert [] + [Step.Claim(1, [1]), Load(1)] == [Step.Claim(1, [1]), Load(1)];
    RanTwo(name, START, [Step.Claim(1, [1]), Load(1)], Tick(301), Alert(301, Some(NOTHING)),
           Step.Claim(2, [1, 2]), Late(0, map[], map[], Job([1, 2], 0, None)));
  }

  lemma LateLoad(name: Naming, done: nat, shelves: map<nat, Shelf>, stored: map<nat, set<nat>>, todo: seq<nat>)
    requires todo != [] && 1 <= todo[0] <= 2
    ensures var s := Late(done, shelves, stored, Job(todo, 0, None));
            var loaded := Snapshot(ShelfOf(s, OBSERVER), StoredOf(s, OBSERVER));
            Takes(name, s, Load(2), Late(done, shelves, stored, Job(todo, 0, Some(loaded))))
  {
  }

  lemma SaveStep(name: Naming, s: State, w: nat, g: Grant, loaded: Snapshot, saved: seq<Belief>)
    requires AtGrant(s, w) && GrantAt(s, w) == g && s.jobs[w].loaded == Some(loaded)
    requires OutcomeOf(name, g, loaded) == Write(saved)
    ensures Takes(name, s, Decide(w), Saved(s, w, g, saved))
  {
    assert Writing(name, s, w) && Saving(name, s, w) == saved;
    DecideSaves(name, s, w);
  }

  // The shelf and the observations with what a round adds.
  function Shelved(shelves: map<nat, Shelf>, saved: seq<Belief>): map<nat, Shelf> {
    shelves[OBSERVER := (if OBSERVER in shelves then shelves[OBSERVER] else map[]) + ById(saved)]
  }

  function Noted(stored: map<nat, set<nat>>, event: nat): map<nat, set<nat>> {
    stored[OBSERVER := (if OBSERVER in stored then stored[OBSERVER] else {}) + {event}]
  }

  lemma LateSaved(s: State, done: nat, todo: seq<nat>, loaded: Snapshot, saved: seq<Belief>)
    requires s == Late(done, s.shelves, s.stored, Job(todo, 0, Some(loaded)))
    requires todo != [] && 1 <= todo[0] <= 2
    ensures AtGrant(s, 2) && GrantAt(s, 2) == Showing(todo[0])
    ensures Saved(s, 2, Showing(todo[0]), saved) ==
            Late(done, Shelved(s.shelves, saved), Noted(s.stored, todo[0]), Job(todo, 1, None))
  {
  }

  lemma LateSave(name: Naming, s: State, done: nat, todo: seq<nat>, loaded: Snapshot, g: Grant, saved: seq<Belief>)
    requires s == Late(done, s.shelves, s.stored, Job(todo, 0, Some(loaded)))
    requires todo != [] && 1 <= todo[0] <= 2 && g == Showing(todo[0])
    requires OutcomeOf(name, g, loaded) == Write(saved)
    ensures Takes(name, s, Decide(2),
                  Late(done, Shelved(s.shelves, saved), Noted(s.stored, todo[0]), Job(todo, 1, None)))
  {
    LateSaved(s, done, todo, loaded, saved);
    SaveStep(name, s, 2, g, loaded, saved);
  }

  lemma LateComplete(name: Naming, done: nat, shelves: map<nat, Shelf>, stored: map<nat, set<nat>>, todo: seq<nat>)
    requires todo != [] && todo[0] == done + 1 <= 2
    ensures Takes(name, Late(done, shelves, stored, Job(todo, 1, None)), Complete(2),
                  Late(done + 1, shelves, stored, Job(todo[1..], 0, None)))
  {
  }

  // Worker 2 projects its next event.
  lemma LateRound(name: Naming, from: State, steps: seq<Step>, here: State, done: nat, todo: seq<nat>, g: Grant,
                  saved: seq<Belief>)
    requires todo != [] && todo[0] == done + 1 <= 2 && g == Showing(todo[0])
    requires here == Late(done, here.shelves, here.stored, Job(todo, 0, None)) && Ran(name, from, steps) == here
    requires OutcomeOf(name, g, Snapshot(ShelfOf(here, OBSERVER), StoredOf(here, OBSERVER))) == Write(saved)
    ensures Ran(name, from, steps + ROUND) ==
            Late(done + 1, Shelved(here.shelves, saved), Noted(here.stored, todo[0]), Job(todo[1..], 0, None))
  {
    var loaded := Snapshot(ShelfOf(here, OBSERVER), StoredOf(here, OBSERVER));
    var t := Late(done, here.shelves, here.stored, Job(todo, 0, Some(loaded)));
    var u := Late(done, Shelved(here.shelves, saved), Noted(here.stored, todo[0]), Job(todo, 1, None));
    var v := Late(done + 1, u.shelves, u.stored, Job(todo[1..], 0, None));
    LateLoad(name, done, here.shelves, here.stored, todo);
    LateSave(name, t, done, todo, loaded, g, saved);
    LateComplete(name, done, u.shelves, u.stored, todo);
    RanThree(name, from, steps, Load(2), t, Decide(2), u, Complete(2), v);
  }

  function Alone(b: Belief): Shelf {
    map[b.id := b]
  }

  lemma FirstOutcome(name: Naming)
    requires Injective(name)
    ensures var r := OutcomeOf(name, Showing(1), NOTHING); r.Write? && ById(r.projected) == Alone(First(name))
  {
    FirstBelief(name, Seen(1), [Said(1)]);
    assert Listing(map[]) == [];
  }

  lemma FirstIsSound(name: Naming)
    requires Injective(name)
    ensures Listing(Alone(First(name))) == [First(name)] && ShelfOk(name, Alone(First(name)), {1})
  {
    var b := First(name);
    OneName(b.id);
    assert Alone(b).Keys == {b.id};
    assert DerivedFrom(name, b, {1});
  }

  // The second event contradicts the belief formed by the first, and replaces it.
  lemma SecondOutcome(name: Naming) returns (saved: seq<Belief>, second: Belief)
    requires Injective(name)
    ensures OutcomeOf(name, Showing(2), Snapshot(Alone(First(name)), {1})) == Write(saved)
    ensures First(name).id in ById(saved) && ById(saved)[First(name).id] == Contradicted(First(name), Seen(2))
    ensures second.id in ById(saved) && ById(saved)[second.id] == second
    ensures second.key == KEY && second.contradictedBy.None? && Indexed(saved)
  {
    var b, loaded := First(name), Snapshot(Alone(First(name)), {1});
    FirstIsSound(name);
    saved := OutcomeOf(name, Showing(2), loaded).projected;
    CopyDecides(name, loaded, Showing(2), b.id);
    assert Showing(2).claims.value[0].key == b.key;
    assert Denied(b, Showing(2).claims.value);
    StandingAfter(name, [b], Seen(2), [Said(2)], {1});
    OrderlyIsIndexed(saved);
    StandingMembers([b]);
    ClaimDecides(name, [b], Seen(2), [Said(2)], {1}, Said(2));
    second := Asserted(name, Seen(2), Said(2), StandingOf([b]).active);
  }

  function Kept(shelf: Shelf): map<nat, Shelf> {
    map[OBSERVER := shelf]
  }

  lemma LoadsFirst(here: State, todo: seq<nat>)
    requires here == Late(0, map[], map[], Job(todo, 0, None))
    ensures Snapshot(ShelfOf(here, OBSERVER), StoredOf(here, OBSERVER)) == NOTHING
  {
  }

  lemma FirstAdds(shelves: map<nat, Shelf>, stored: map<nat, set<nat>>, todo: seq<nat>, saved: seq<Belief>)
    requires shelves == map[] && stored == map[] && todo == [1, 2]
    ensures Late(1, Shelved(shelves, saved), Noted(stored, todo[0]), Job(todo[1..], 0, None)) ==
            Late(1, Kept(ById(saved)), map[OBSERVER := {1}], Job([2], 0, None))
  {
    assert map[] + ById(saved) == ById(saved) && {} + {1} == {1} && todo[1..] == [2];
    assert Noted(stored, 1) == map[OBSERVER := {1}] && Shelved(shelves, saved) == Kept(ById(saved));
  }

  lemma FirstRound(name: Naming, from: State, steps: seq<Step>, here: State, todo: seq<nat>, g: Grant,
                   saved: seq<Belief>)
    requires here == Late(0, map[], map[], Job(todo, 0, None)) && Ran(name, from, steps) == here
    requires todo == [1, 2] && g == Showing(1) && OutcomeOf(name, g, NOTHING) == Write(saved)
    ensures Ran(name, from, steps + ROUND) == Late(1, Kept(ById(saved)), map[OBSERVER := {1}], Job([2], 0, None))
  {
    LoadsFirst(here, todo);
    LateRound(name, from, steps, here, 0, todo, g, saved);
    FirstAdds(here.shelves, here.stored, todo, saved);
  }

  lemma OneProjected(name: Naming)
    requires Injective(name)
    ensures Ran(name, START, OVERTAKEN + ROUND) ==
            Late(1, Kept(Alone(First(name))), map[OBSERVER := {1}], Job([2], 0, None))
  {
    var first := OutcomeOf(name, Showing(1), NOTHING).projected;
    Overtaken(name);
    FirstOutcome(name);
    FirstRound(name, START, OVERTAKEN, Ran(name, START, OVERTAKEN), [1, 2], Showing(1), first);
  }

  lemma SecondAdds(shelves: map<nat, Shelf>, stored: map<nat, set<nat>>, todo: seq<nat>, shelf: Shelf,
                   saved: seq<Belief>)
    requires shelves == Kept(shelf) && stored == map[OBSERVER := {1}] && todo == [2]
    ensures Late(2, Shelved(shelves, saved), Noted(stored, todo[0]), Job(todo[1..], 0, None)) ==
            AfterBoth(shelf + ById(saved))
  {
    assert {1} + {2} == {1, 2} && todo[1..] == [];
    assert Noted(stored, 2) == map[OBSERVER := {1, 2}] && Shelved(shelves, saved) == Kept(shelf + ById(saved));
  }

  lemma LoadsSecond(here: State, todo: seq<nat>, shelf: Shelf)
    requires here == Late(1, Kept(shelf), map[OBSERVER := {1}], Job(todo, 0, None))
    ensures Snapshot(ShelfOf(here, OBSERVER), StoredOf(here, OBSERVER)) == Snapshot(shelf, {1})
  {
  }

  lemma SecondRound(name: Naming, from: State, steps: seq<Step>, here: State, todo: seq<nat>, shelf: Shelf, g: Grant,
                    saved: seq<Belief>)
    requires here == Late(1, Kept(shelf), map[OBSERVER := {1}], Job(todo, 0, None)) && Ran(name, from, steps) == here
    requires todo == [2] && g == Showing(2) && OutcomeOf(name, g, Snapshot(shelf, {1})) == Write(saved)
    ensures Ran(name, from, steps + ROUND) == AfterBoth(shelf + ById(saved))
  {
    LoadsSecond(here, todo, shelf);
    LateRound(name, from, steps, here, 1, todo, g, saved);
    SecondAdds(here.shelves, here.stored, todo, shelf, saved);
  }

  // Both events are projected, and worker 1 has not moved.
  lemma BothProjected(name: Naming) returns (shelf: Shelf, second: Belief)
    requires Injective(name)
    ensures Ran(name, START, PROJECTED) == AfterBoth(shelf)
    ensures Replaced(shelf, First(name), second)
  {
    var saved;
    saved, second := SecondOutcome(name);
    OneProjected(name);
    SecondRound(name, START, OVERTAKEN + ROUND, Ran(name, START, OVERTAKEN + ROUND), [2], Alone(First(name)),
                Showing(2), saved);
    shelf := Alone(First(name)) + ById(saved);
  }

  function AfterBoth(shelf: Shelf): State {
    Late(2, Kept(shelf), map[OBSERVER := {1, 2}], Job([], 0, None))
  }

  predicate Replaced(shelf: Shelf, b: Belief, second: Belief) {
    && b.id in shelf && shelf[b.id] == Contradicted(b, Seen(2))
    && second.id in shelf && shelf[second.id] == second && second.key == KEY && second.contradictedBy.None?
    && forall id :: id in shelf ==> shelf[id].id == id
  }

  lemma TwoRevived(shelf: Shelf, b: Belief, second: Belief)
    requires forall id :: id in shelf ==> shelf[id].id == id
    requires b.id in shelf && shelf[b.id].contradictedBy.Some? && b.key == second.key && b.contradictedBy.None?
    requires second.id in shelf && shelf[second.id] == second && second.contradictedBy.None?
    ensures TwoInForce(Listing(shelf + Alone(b)), b.key)
  {
    var over := shelf + Alone(b);
    ListingMembers(over);
    assert InForce(b, Listing(over), b.key) && InForce(second, Listing(over), b.key);
  }

  lemma AllProjected(s: State, shelf: Shelf)
    requires s == AfterBoth(shelf)
    ensures forall id :: id in s.rows ==> s.rows[id].published && Done(s.stored, s.rows[id].grants, |s.rows[id].grants|)
  {
  }

  lemma StillHolding(s: State, shelf: Shelf)
    requires s == AfterBoth(shelf)
    ensures AboutToSave(s, 1, OBSERVER, KEY, Said(1).value) && On(s, Decide(1), 1) && OutdatedDecision(s, Decide(1))
    ensures GrantAt(s, 1) == Showing(1) && ShelfOf(s, OBSERVER) == shelf
  {
  }

  lemma Revived(name: Naming, s: State, shelf: Shelf, second: Belief)
    requires Injective(name) && s == AfterBoth(shelf) && Replaced(shelf, First(name), second)
    ensures Can(s, Decide(1))
    ensures var t := Next(name, s, Decide(1));
            && ShelfOf(t, OBSERVER) == shelf + Alone(First(name))
            && TwoInForce(Listing(ShelfOf(t, OBSERVER)), KEY)
  {
    StillHolding(s, shelf);
    SavesFirstBelief(name, s, 1, OBSERVER, KEY, Said(1).value);
    TwoRevived(shelf, First(name), second);
  }

  /**
   * From an empty outbox, a worker that still holds a copy loaded before its lease ran out brings a contradicted belief
   * back into force, next to the one that replaced it, though every event is published and projected.
   */
  lemma StaleAgainRevives(name: Naming)
    requires Injective(name)
    ensures var b, s := First(name), Ran(name, START, PROJECTED);
            && Fresh(START) && START.shelves == map[]
            && (forall id :: id in s.rows ==>
                  s.rows[id].published && Done(s.stored, s.rows[id].grants, |s.rows[id].grants|))
            && OutdatedDecision(s, Decide(1)) && On(s, Decide(1), 1)
            && var t := Next(name, s, Decide(1));
            && b.id in ShelfOf(s, OBSERVER) && ShelfOf(s, OBSERVER)[b.id] == Contradicted(b, Seen(2))
            && b.id in ShelfOf(t, OBSERVER) && ShelfOf(t, OBSERVER)[b.id] == b
            && TwoInForce(Listing(ShelfOf(t, OBSERVER)), KEY)
  {
    var s := Ran(name, START, PROJECTED);
    var shelf, second := BothProjected(name);
    AllProjected(s, shelf);
    StillHolding(s, shelf);
    Revived(name, s, shelf, second);
  }
}
