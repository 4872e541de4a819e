/** Submitting a command again to the application, after whatever happened in between. */
module ApplicationRetries {
  import opened Wrappers
  import opened KernelState
  import opened CommandBus
  import opened BusRuns
  import opened Application
  import opened ApplicationRuns
  import opened Rebuilding

  /* ---- What no operation takes away ---- */

  ghost predicate Wider<K, V>(before: map<K, V>, after: map<K, V>) {
    forall k :: k in before ==> k in after
  }

  ghost predicate RosterGrows(before: Roster, after: Roster) {
    Wider(before.entities, after.entities) && Wider(before.authorities, after.authorities)
  }

  predicate StoreGrows(before: Store, after: Store) {
    && (forall id :: id in before.branches ==>
          id in after.branches && after.branches[id].world == before.branches[id].world)
    && (forall k :: k in before.receipts ==> k in after.receipts && after.receipts[k] == before.receipts[k])
  }

  predicate RunsStay(before: map<nat, RunRecord>, after: map<nat, RunRecord>) {
    forall r :: r in before ==> r in after && after[r] == before[r]
  }

  ghost predicate Later(app: App, later: App) {
    && StoreGrows(app.store, later.store)
    && RosterGrows(Roster(app.entities, app.authorities), Roster(later.entities, later.authorities))
    && RunsStay(app.runs, later.runs)
    && Wider(app.bases, later.bases) && Wider(app.events, later.events)
  }

  lemma {:induction false} RecordedGrows(roster: Roster, p: Proposal, mutations: seq<Mutation>)
    ensures RosterGrows(roster, Recorded(roster, p, mutations).0)
    decreases |mutations|
  {
    if mutations != [] {
      var m := mutations[0];
      var key := (p.branch, m.entity);
      if key in roster.entities {
        RecordedGrows(roster, p, mutations[1..]);
      } else {
        var entities := roster.entities[key := RecordFor(p, m)];
        if m.controller.None? {
          RecordedGrows(roster.(entities := entities), p, mutations[1..]);
        } else if (p.world, m.controller.value) in roster.authorities {
          var next := Roster(entities, Control(roster.authorities, p.world, m.controller.value, m.entity));
          RecordedGrows(next, p, mutations[1..]);
        }
      }
    }
  }

  lemma ExecutedGrows(defs: Definitions, s: Store, p: Proposal, actor: Actor)
    ensures StoreGrows(s, Executed(defs, s, p, actor).0)
  {
    StepEffect(defs, s, Submission(p, actor));
  }

  // Logging leaves all but roster, events and log alone, and without an error its event is there.
  lemma LoggedShapeOf(app: App, p: Proposal, receipt: Receipt)
    ensures var after := Logged(app, p, receipt).0;
            after == app.(entities := after.entities, authorities := after.authorities,
                          events := after.events, history := after.history)
  {
    var (after, failure) := Logged(app, p, receipt);
    if receipt.event.id in app.events {
      assert after == app;
    } else if failure.Some? {
      assert after == Entered(app, Recorded(Roster(app.entities, app.authorities), p, Entering(receipt)).0);
    } else {
      assert after.store == app.store && after.worlds == app.worlds && after.runs == app.runs;
    }
  }

  lemma LoggedEvents(app: App, p: Proposal, receipt: Receipt)
    ensures var (after, failure) := Logged(app, p, receipt);
            Wider(app.events, after.events) && (failure.None? ==> receipt.event.id in after.events)
  {
  }

  lemma LoggedEnters(app: App, p: Proposal, receipt: Receipt)
    ensures var after := Logged(app, p, receipt).0;
            var roster := Roster(app.entities, app.authorities);
            Roster(after.entities, after.authorities) in {roster, Recorded(roster, p, Entering(receipt)).0}
  {
  }

  lemma LoggedRoster(app: App, p: Proposal, receipt: Receipt, after: App)
    requires after == Logged(app, p, receipt).0
    ensures Wider(app.entities, after.entities) && Wider(app.authorities, after.authorities)
  {
    var roster := Roster(app.entities, app.authorities);
    var entered := Recorded(roster, p, Entering(receipt)).0;
    LoggedEnters(app, p, receipt);
    RecordedGrows(roster, p, Entering(receipt));
    assert after.entities in {app.entities, entered.entities};
    assert after.authorities in {app.authorities, entered.authorities};
  }

  // A change that only adds to what may not shrink.
  lemma AddsOnly(app: App, next: App)
    requires next == app.(entities := next.entities, authorities := next.authorities, runs := next.runs,
                          events := next.events, history := next.history, snapshots := next.snapshots)
    requires Wider(app.entities, next.entities) && Wider(app.authorities, next.authorities)
    requires Wider(app.events, next.events) && RunsStay(app.runs, next.runs)
    ensures Later(app, next)
  {
  }

  lemma StoreMoves(app: App, next: App)
    requires StoreGrows(app.store, next.store) && RunsStay(app.runs, next.runs)
    requires Wider(app.entities, next.entities) && Wider(app.authorities, next.authorities)
    requires app.bases == next.bases && app.events == next.events
    ensures Later(app, next)
  {
  }

  lemma LoggedGrows(app: App, p: Proposal, receipt: Receipt)
    ensures Later(app, Logged(app, p, receipt).0)
  {
    LoggedShapeOf(app, p, receipt);
    LoggedEvents(app, p, receipt);
    LoggedRoster(app, p, receipt, Logged(app, p, receipt).0);
    AddsOnly(app, Logged(app, p, receipt).0);
  }

  lemma LaterTwice(a: App, b: App, c: App)
    requires Later(a, b) && Later(b, c)
    ensures Later(a, c)
  {
  }

  // The application as the bus leaves it, before logging.
  function Bussed(defs: Definitions, app: App, p: Proposal): App
    requires Precheck(app, p).Ok?
  {
    WithBase(app, p.branch).(store := Executed(defs, app.store, p, Precheck(app, p).value).0)
  }

  lemma BussedGrows(defs: Definitions, app: App, p: Proposal)
    requires Precheck(app, p).Ok?
    ensures Later(app, Bussed(defs, app, p)) && p.branch in Bussed(defs, app, p).bases
  {
    ExecutedGrows(defs, app.store, p, Precheck(app, p).value);
  }

  // A submission past its checks is the bus, and then logging of what the bus answers.
  lemma SubmittedParts(defs: Definitions, app: App, p: Proposal)
    requires Precheck(app, p).Ok?
    ensures var answer := Executed(defs, app.store, p, Precheck(app, p).value).1;
            var bussed := Bussed(defs, app, p);
            var (after, reply) := Submitted(defs, app, p);
            if answer.Err? then after == bussed && reply == answer
            else after == Logged(bussed, p, answer.value).0
                 && (reply.Ok? ==> reply == answer && Logged(bussed, p, answer.value).1.None?)
  {
  }

  lemma SubmittedGrows(defs: Definitions, app: App, p: Proposal)
    ensures Later(app, Submitted(defs, app, p).0)
  {
    if Precheck(app, p).Ok? {
      var answer := Executed(defs, app.store, p, Precheck(app, p).value).1;
      SubmittedParts(defs, app, p);
      BussedGrows(defs, app, p);
      if answer.Ok? {
        LoggedGrows(Bussed(defs, app, p), p, answer.value);
        LaterTwice(app, Bussed(defs, app, p), Submitted(defs, app, p).0);
      }
    }
  }

  lemma OpenedGrows(app: App, world: nat, branch: nat, projections: Projections)
    ensures Later(app, Opened(app, world, branch, projections))
  {
    if branch in app.store.branches {
      assert Opened(app, world, branch, projections) == app;
    } else {
      var b := Branch(world, branch, Canonical, projections, None, 0);
      var store := app.store.(branches := app.store.branches[branch := b]);
      assert Opened(app, world, branch, projections) == app.(store := store, worlds := app.worlds[world := branch]);
      assert StoreGrows(app.store, store);
    }
  }

  lemma TrialGrowsApp(app: App, world: nat, snapshot: nat, trial: nat, run: nat)
    ensures Later(app, TrialOpened(app, world, snapshot, trial, run))
  {
    var next := TrialOpened(app, world, snapshot, trial, run);
    assert StoreGrows(app.store, next.store) && RunsStay(app.runs, next.runs);
    StoreMoves(app, next);
  }

  lemma CreatedGrows(app: App, e: EntityRecord, projected: Fields, position: Fields, profile: Fields, next: App)
    requires next == EntityCreated(app, e, projected, position, profile)
    ensures Later(app, next)
  {
    if Writes(app, e) {
      var q, authorities := WrittenEntity(app, e, projected, position, profile);
      assert StoreGrows(app.store, app.store.(branches := Rewritten(app.store.branches, e.branch, q)));
    } else {
      StrayEntity(app, e, projected, position, profile);
    }
  }

  lemma RunGrows(app: App, run: nat, world: nat, branch: nat)
    ensures Later(app, RunCreated(app, run, world, branch))
  {
    var next := RunCreated(app, run, world, branch);
    assert next == app.(runs := next.runs);
  }

  lemma GrantGrows(app: App, world: nat, actor: Actor)
    ensures Later(app, Granted(app, world, actor))
  {
    var next := Granted(app, world, actor);
    assert next == app.(authorities := next.authorities);
  }

  lemma SnapshotGrowsApp(app: App, snapshot: nat, branch: nat)
    ensures Later(app, Snapshotted(app, snapshot, branch))
  {
    var next := Snapshotted(app, snapshot, branch);
    assert next == app.(snapshots := next.snapshots);
  }

  lemma NextGrows(defs: Definitions, app: App, op: Step)
    ensures Later(app, Next(defs, app, op))
  {
    match op
    case Submit(p) => SubmittedGrows(defs, app, p);
    case CreateWorld(world, branch, projections) => OpenedGrows(app, world, branch, projections);
    case CreateRun(run, world, branch) => RunGrows(app, run, world, branch);
    case GrantAuthority(world, actor) => GrantGrows(app, world, actor);
    case CreateSnapshot(snapshot, branch) => SnapshotGrowsApp(app, snapshot, branch);
    case CreateTrial(world, snapshot, trial, run) => TrialGrowsApp(app, world, snapshot, trial, run);
    case CreateEntity(e, projected, position, profile) =>
      CreatedGrows(app, e, projected, position, profile, Next(defs, app, op));
  }

  lemma {:induction false} RanGrows(defs: Definitions, app: App, ops: seq<Step>)
    ensures Later(app, Ran(defs, app, ops))
    decreases |ops|
  {
    if ops != [] {
      var next := Next(defs, app, ops[0]);
      NextGrows(defs, app, ops[0]);
      RanGrows(defs, next, ops[1..]);
      LaterTwice(app, next, Ran(defs, next, ops[1..]));
    }
  }

  /* ---- Receipts carry the identifier of their key ---- */

  predicate ReceiptsNamed(s: Store) {
    forall k :: k in s.receipts ==> s.receipts[k].event.id == k
  }

  lemma ExecutedNames(defs: Definitions, s: Store, p: Proposal, actor: Actor)
    requires ReceiptsNamed(s)
    ensures ReceiptsNamed(Executed(defs, s, p, actor).0)
    ensures var answer := Executed(defs, s, p, actor).1;
            answer.Ok? ==>
              var t := Executed(defs, s, p, actor).0;
              KeyFor(p) in t.receipts && t.receipts[KeyFor(p)] == answer.value && answer.value.event.id == KeyFor(p)
  {
    NormalizedKeepsKey(defs, Submission(p, actor));
  }

  lemma SubmittedNames(defs: Definitions, app: App, p: Proposal)
    requires ReceiptsNamed(app.store)
    ensures ReceiptsNamed(Submitted(defs, app, p).0.store)
  {
    if Precheck(app, p).Ok? {
      var answer := Executed(defs, app.store, p, Precheck(app, p).value).1;
      ExecutedNames(defs, app.store, p, Precheck(app, p).value);
      SubmittedParts(defs, app, p);
      if answer.Ok? { LoggedShapeOf(Bussed(defs, app, p), p, answer.value); }
    }
  }

  lemma {:induction false} RanNames(defs: Definitions, app: App, ops: seq<Step>)
    requires ReceiptsNamed(app.store)
    ensures ReceiptsNamed(Ran(defs, app, ops).store)
    decreases |ops|
  {
    if ops != [] {
      if ops[0].Submit? {
        SubmittedNames(defs, app, ops[0].proposal);
      } else {
        NextBranches(defs, app, ops[0]);
      }
      RanNames(defs, Next(defs, app, ops[0]), ops[1..]);
    }
  }

  /* ---- The retry ---- */

  // All that an answered submission leaves behind and a retry comes upon.
  predicate Settled(app: App, p: Proposal, receipt: Receipt) {
    && KeyFor(p) in app.store.receipts && app.store.receipts[KeyFor(p)] == receipt
    && receipt.event.id in app.events && p.branch in app.bases
    && p.branch in app.store.branches && app.store.branches[p.branch].world == p.world
    && p.run in app.runs && app.runs[p.run] == RunRecord(p.world, p.branch)
    && (p.world, p.actor) in app.authorities
  }

  // What the checks have established stays.
  lemma ChecksStay(app: App, later: App, p: Proposal)
    requires Precheck(app, p).Ok? && Later(app, later)
    ensures p.branch in later.store.branches && later.store.branches[p.branch].world == p.world
    ensures p.run in later.runs && later.runs[p.run] == RunRecord(p.world, p.branch)
    ensures (p.world, p.actor) in later.authorities
  {
  }

  lemma AnsweredSettles(defs: Definitions, app: App, p: Proposal)
    requires ReceiptsNamed(app.store) && Submitted(defs, app, p).1.Ok?
    ensures Settled(Submitted(defs, app, p).0, p, Submitted(defs, app, p).1.value)
  {
    var (after, reply) := Submitted(defs, app, p);
    var bussed := Bussed(defs, app, p);
    ExecutedNames(defs, app.store, p, Precheck(app, p).value);
    SubmittedParts(defs, app, p);
    BussedGrows(defs, app, p);
    LoggedShapeOf(bussed, p, reply.value);
    LoggedEvents(bussed, p, reply.value);
    SubmittedGrows(defs, app, p);
    ChecksStay(app, after, p);
  }

  lemma SettledStays(app: App, later: App, p: Proposal, receipt: Receipt)
    requires Settled(app, p, receipt) && Later(app, later)
    ensures Settled(later, p, receipt)
  {
  }

  // The first check that refuses the retry, or the stored receipt.
  function RetryAnswer(defs: Definitions, later: App, q: Proposal, receipt: Receipt): Result<Receipt, Error> {
    match Precheck(later, q)
    case Err(e) => Err(e)
    case Ok(actor) =>
      match Authorize(defs, q, actor)
      case Err(e) => Err(e)
      case Ok(_) => Ok(receipt)
  }

  lemma SettledAnswers(defs: Definitions, later: App, p: Proposal, receipt: Receipt, q: Proposal)
    requires Settled(later, p, receipt) && KeyFor(q) == KeyFor(p)
    ensures Submitted(defs, later, q) == (later, RetryAnswer(defs, later, q, receipt))
  {
    if Precheck(later, q).Ok? {
      NormalizedKeepsKey(defs, Submission(q, Precheck(later, q).value));
      assert later.(store := later.store) == later;
    }
  }

  /**
   * Once a submission was answered, a retry under its key changes nothing, whatever happened before and in between. It
   * gets the first receipt if it passes the checks of the application and of the bus, and their error otherwise.
   */
  lemma RetryExact(defs: Definitions, before: seq<Step>, p: Proposal, between: seq<Step>, q: Proposal)
    requires Submitted(defs, Ran(defs, EMPTY, before), p).1.Ok? && KeyFor(q) == KeyFor(p)
    ensures var (after, first) := Submitted(defs, Ran(defs, EMPTY, before), p);
            var later := Ran(defs, after, between);
            Submitted(defs, later, q) == (later, RetryAnswer(defs, later, q, first.value))
  {
    var app := Ran(defs, EMPTY, before);
    var (after, first) := Submitted(defs, app, p);
    RanNames(defs, EMPTY, before);
    AnsweredSettles(defs, app, p);
    RanGrows(defs, after, between);
    SettledStays(after, Ran(defs, after, between), p, first.value);
    SettledAnswers(defs, Ran(defs, after, between), p, first.value, q);
  }

  // A spawn of an entity that is on the branch already.
  predicate Occupied(app: App, p: Proposal) {
    && p.commandType == SPAWN && SpawnTarget(p.parameters).Some?
    && (p.branch, SpawnTarget(p.parameters).value.0) in app.entities
  }

  lemma SamePrecheck(app: App, later: App, p: Proposal)
    requires Precheck(app, p).Ok? && Later(app, later)
    ensures (p.world, p.actor) in later.authorities
    ensures Precheck(later, p) ==
            if Occupied(later, p) then Err(EntityExists) else Ok(later.authorities[(p.world, p.actor)])
  {
  }

  /**
   * The very same proposal again: refused if it spawns an entity that is on the branch by now, and otherwise answered
   * by the first receipt exactly if the actor may still send it.
   */
  lemma SameRetryExact(defs: Definitions, before: seq<Step>, p: Proposal, between: seq<Step>)
    requires Submitted(defs, Ran(defs, EMPTY, before), p).1.Ok?
    ensures var (after, first) := Submitted(defs, Ran(defs, EMPTY, before), p);
            var later := Ran(defs, after, between);
            && Submitted(defs, later, p).0 == later && (p.world, p.actor) in later.authorities
            && var again := Submitted(defs, later, p).1;
            && (Occupied(later, p) ==> again == Err(EntityExists))
            && (!Occupied(later, p) ==>
                  var allowed := Authorize(defs, p, later.authorities[(p.world, p.actor)]);
                  again == if allowed.Ok? then first else Err(allowed.error))
  {
    var app := Ran(defs, EMPTY, before);
    var (after, first) := Submitted(defs, app, p);
    var later := Ran(defs, after, between);
    RetryExact(defs, before, p, between, p);
    SubmittedGrows(defs, app, p);
    RanGrows(defs, after, between);
    LaterTwice(app, after, later);
    SamePrecheck(app, later, p);
  }

  /* ---- Spawns ---- */

  lemma {:induction false} RecordedHolds(roster: Roster, p: Proposal, mutations: seq<Mutation>)
    requires Recorded(roster, p, mutations).1.None? && mutations != []
    ensures (p.branch, mutations[0].entity) in Recorded(roster, p, mutations).0.entities
  {
    var m := mutations[0];
    var key := (p.branch, m.entity);
    if key in roster.entities {
      RecordedGrows(roster, p, mutations[1..]);
    } else {
      var entities := roster.entities[key := RecordFor(p, m)];
      var next := if m.controller.None? then roster.(entities := entities)
                  else Roster(entities, Control(roster.authorities, p.world, m.controller.value, m.entity));
      RecordedGrows(next, p, mutations[1..]);
    }
  }

  // The submission is a spawn that takes effect and is accepted.
  predicate Spawns(defs: Definitions, app: App, p: Proposal) {
    && p.commandType == SPAWN && Precheck(app, p).Ok?
    && TakesEffect(defs, app.store, Submission(p, Precheck(app, p).value))
    && Answer(defs, app.store, Submission(p, Precheck(app, p).value)).value.result.accepted
  }

  lemma SpawnOccupies(defs: Definitions, app: App, p: Proposal)
    requires SpawnOnly(defs) && KeysOk(app.events, app.store.receipts) && Spawns(defs, app, p)
    ensures Submitted(defs, app, p).1.Ok? && Occupied(Submitted(defs, app, p).0, p)
  {
    var x := Submission(p, Precheck(app, p).value);
    var receipt := Answer(defs, app.store, x).value;
    SpawnsEnter(defs, app, p);
    SubmittedOkIff(defs, app, p);
    SubmitShape(defs, app, p);
    ExecutedResult(defs, app.store, p, x.actor);
    RecordedHolds(Roster(app.entities, app.authorities), p, receipt.result.mutations);
  }

  lemma OccupiedIsRefused(defs: Definitions, later: App, q: Proposal)
    requires Occupied(later, q)
    ensures Submitted(defs, later, q).0 == later && Submitted(defs, later, q).1.Err?
  {
  }

  /**
   * So an accepted spawn is not idempotent to its sender: sent again it is always refused, and changes nothing; and so
   * is every other spawn of that entity on that branch, under whatever key.
   */
  lemma AcceptedSpawnIsRefused(defs: Definitions, before: seq<Step>, p: Proposal, between: seq<Step>, q: Proposal)
    requires SpawnOnly(defs) && Spawns(defs, Ran(defs, EMPTY, before), p)
    requires q.commandType == SPAWN && q.branch == p.branch && SpawnTarget(q.parameters).Some?
    requires SpawnTarget(p.parameters).Some? ==>
               SpawnTarget(q.parameters).value.0 == SpawnTarget(p.parameters).value.0
    ensures var later := Ran(defs, Submitted(defs, Ran(defs, EMPTY, before), p).0, between);
            && Submitted(defs, later, p) == (later, Err(EntityExists))
            && Submitted(defs, later, q).0 == later && Submitted(defs, later, q).1.Err?
  {
    var app := Ran(defs, EMPTY, before);
    var after := Submitted(defs, app, p).0;
    SpawnsAllEnter(defs, EMPTY, before);
    VersionsCountLogs(defs, EMPTY, before);
    SpawnOccupies(defs, app, p);
    RanGrows(defs, after, between);
    SameRetryExact(defs, before, p, between);
    OccupiedIsRefused(defs, Ran(defs, after, between), q);
  }
}
