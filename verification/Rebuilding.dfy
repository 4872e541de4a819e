/** Every run of the application leaves each branch equal to what its ledger and its snapshots rebuild. */
module Rebuilding {
  import opened Wrappers
  import opened KernelState
  import opened CommandBus
  import opened BusRuns
  import opened Replay
  import opened Application
  import opened ApplicationRuns

  // A direct write reaches its branch only once the checks on the entity have passed.
  predicate Writes(app: App, e: EntityRecord) {
    && e.branch in app.store.branches && app.store.branches[e.branch].world == e.world
    && (e.controller.Some? ==> (e.world, e.controller.value) in app.authorities)
  }

  // A direct write that really changes the branch.
  predicate Alters(app: App, op: Step) {
    && op.CreateEntity? && Writes(app, op.record)
    && var p := app.store.branches[op.record.branch].projections;
    Written(p, op.record.entity, op.projected, op.position, op.profile) != p
  }

  predicate Snapped(app: App, branch: nat) {
    exists s :: s in app.snapshots && app.snapshots[s].branch == branch
  }

  /* ---- The three guarantees, and what breaks each ---- */

  // Replay gives the live branch; every snapshot and its log suffix do; the origin of every trial and its log do.
  datatype Guarantee = Replaying | Snapshots | Trials

  ghost predicate Holds(g: Guarantee, app: App) {
    match g
    case Replaying => forall id :: id in app.store.branches ==> ReplayOf(app, id) == Ok(app.store.branches[id])
    case Snapshots => SnapshotsOk(app.store.branches, app.history, app.snapshots)
    case Trials => TrialsOk(app.store.branches, app.history)
  }

  // A write past the log into a branch the guarantee is about, or a command whose entity bookkeeping stops.
  predicate Breaks(g: Guarantee, defs: Definitions, app: App, op: Step) {
    match g
    case Replaying =>
      || (Alters(app, op) && op.record.branch in app.bases)
      || (op.Submit? && !EntersAll(defs, app, op.proposal))
    case Snapshots => Alters(app, op) && Snapped(app, op.record.branch)
    case Trials => Alters(app, op) && app.store.branches[op.record.branch].kind == Trial
  }

  predicate Spared(g: Guarantee, defs: Definitions, app: App, ops: seq<Step>)
    decreases |ops|
  {
    ops == [] || (!Breaks(g, defs, app, ops[0]) && Spared(g, defs, Next(defs, app, ops[0]), ops[1..]))
  }

  ghost predicate HoldsThroughout(g: Guarantee, defs: Definitions, app: App, ops: seq<Step>)
    decreases |ops|
  {
    Holds(g, app) && (ops == [] || HoldsThroughout(g, defs, Next(defs, app, ops[0]), ops[1..]))
  }

  // No submission of the run stops in its entity bookkeeping.
  predicate Enters(defs: Definitions, app: App, op: Step) {
    op.Submit? ==> EntersAll(defs, app, op.proposal)
  }

  predicate AllEnter(defs: Definitions, app: App, ops: seq<Step>)
    decreases |ops|
  {
    ops == [] || (Enters(defs, app, ops[0]) && AllEnter(defs, Next(defs, app, ops[0]), ops[1..]))
  }

  /** That is so in every run if handlers create just the spawned entity. */
  lemma {:induction false} SpawnsAllEnter(defs: Definitions, app: App, ops: seq<Step>)
    requires SpawnOnly(defs)
    ensures AllEnter(defs, app, ops)
    decreases |ops|
  {
    if ops != [] {
      if ops[0].Submit? { SpawnsEnter(defs, app, ops[0].proposal); }
      SpawnsAllEnter(defs, Next(defs, app, ops[0]), ops[1..]);
    }
  }

  /* ---- What each operation does to the parts of the invariant ---- */

  // What has to hold besides: the ledger for snapshots and trials, and for replay the bases.
  ghost predicate Grounded(g: Guarantee, app: App) {
    && KeysOk(app.events, app.store.receipts)
    && (g == Replaying ==> BasesOk(app.store.branches, app.history, app.bases, app.offsets))
    && (g != Replaying ==> VersionsOk(app.store.branches, app.history))
  }

  // Rewriting the projections of one branch, with its log as it is.
  function Rewritten(branches: Branches, id: nat, q: Projections): Branches
    requires id in branches
  {
    branches[id := branches[id].(projections := q)]
  }

  // The application as it is after a step, as far as branches and ledger go.
  predicate SameLedger(app: App, next: App) {
    && next.history == app.history && next.events == app.events && next.store.receipts == app.store.receipts
    && next.offsets == app.offsets && next.bases == app.bases
  }

  // What a step other than a submission does to the branches: nothing, a new one without a log, or a direct write.
  ghost predicate BranchStep(app: App, op: Step, next: App) {
    || next.store.branches == app.store.branches
    || (exists id :: NewBranch(app, id, next))
    || (Alters(app, op) && next.snapshots == app.snapshots &&
        next.store.branches == Rewritten(app.store.branches, op.record.branch,
          Written(app.store.branches[op.record.branch].projections, op.record.entity, op.projected, op.position,
                  op.profile)))
  }

  predicate NewBranch(app: App, id: nat, next: App) {
    && id !in app.store.branches && id in next.store.branches && next.snapshots == app.snapshots
    && next.store.branches == app.store.branches[id := next.store.branches[id]]
    && var b := next.store.branches[id];
    b.id == id && b.version == 0 && (b.kind == Trial ==> b.base == Some(Hash(b.projections)))
  }

  lemma OpenedStep(app: App, op: Step, world: nat, branch: nat, projections: Projections)
    ensures var next := Opened(app, world, branch, projections); SameLedger(app, next) && BranchStep(app, op, next)
  {
    var next := Opened(app, world, branch, projections);
    if branch !in app.store.branches { assert NewBranch(app, branch, next); }
  }

  lemma TrialStep(app: App, op: Step, world: nat, snapshot: nat, trial: nat, run: nat)
    ensures var next := TrialOpened(app, world, snapshot, trial, run);
            SameLedger(app, next) && BranchStep(app, op, next)
  {
    var next := TrialOpened(app, world, snapshot, trial, run);
    if next.store != app.store && trial !in app.store.branches { assert NewBranch(app, trial, next); }
  }

  // A direct write that is refused leaves at most the entity record.
  lemma StrayEntity(app: App, e: EntityRecord, projected: Fields, position: Fields, profile: Fields)
    requires !Writes(app, e)
    ensures var next := EntityCreated(app, e, projected, position, profile);
            next == app || next == app.(entities := app.entities[(e.branch, e.entity) := e])
  {
  }

  lemma WrittenEntity(app: App, e: EntityRecord, projected: Fields, position: Fields, profile: Fields)
    returns (q: Projections, authorities: map<(nat, nat), Actor>)
    requires Writes(app, e)
    ensures q == Written(app.store.branches[e.branch].projections, e.entity, projected, position, profile)
    ensures EntityCreated(app, e, projected, position, profile) ==
            app.(entities := app.entities[(e.branch, e.entity) := e], authorities := authorities,
                 store := app.store.(branches := Rewritten(app.store.branches, e.branch, q)))
    ensures forall k :: k in app.authorities ==> k in authorities
  {
    q := Written(app.store.branches[e.branch].projections, e.entity, projected, position, profile);
    authorities := if e.controller.None? then app.authorities
                   else Control(app.authorities, e.world, e.controller.value, e.entity);
  }

  lemma WriteStep(app: App, e: EntityRecord, projected: Fields, position: Fields, profile: Fields, next: App)
    requires next == EntityCreated(app, e, projected, position, profile)
    ensures SameLedger(app, next) && next.snapshots == app.snapshots
    ensures BranchStep(app, CreateEntity(e, projected, position, profile), next)
  {
    if Writes(app, e) {
      var q, authorities := WrittenEntity(app, e, projected, position, profile);
      var p := app.store.branches[e.branch].projections;
      assert Rewritten(app.store.branches, e.branch, p) == app.store.branches;
    } else {
      StrayEntity(app, e, projected, position, profile);
    }
  }

  lemma RunStep(app: App, run: nat, world: nat, branch: nat)
    ensures var next := RunCreated(app, run, world, branch);
            SameLedger(app, next) && next.store == app.store && next.snapshots == app.snapshots
  {
    var next := RunCreated(app, run, world, branch);
    assert next == app.(runs := next.runs);
  }

  lemma GrantStep(app: App, world: nat, actor: Actor)
    ensures var next := Granted(app, world, actor);
            SameLedger(app, next) && next.store == app.store && next.snapshots == app.snapshots
  {
    var next := Granted(app, world, actor);
    assert next == app.(authorities := next.authorities);
  }

  lemma SnapshotStep(app: App, snapshot: nat, branch: nat)
    ensures var next := Snapshotted(app, snapshot, branch);
            SameLedger(app, next) && next.store == app.store
  {
    var next := Snapshotted(app, snapshot, branch);
    assert next == app.(snapshots := next.snapshots);
  }

  lemma NextBranches(defs: Definitions, app: App, op: Step)
    requires !op.Submit?
    ensures SameLedger(app, Next(defs, app, op)) && BranchStep(app, op, Next(defs, app, op))
    ensures !op.CreateSnapshot? ==> Next(defs, app, op).snapshots == app.snapshots
  {
    match op
    case CreateWorld(world, branch, projections) => OpenedStep(app, op, world, branch, projections);
    case CreateRun(run, world, branch) => RunStep(app, run, world, branch);
    case GrantAuthority(world, actor) => GrantStep(app, world, actor);
    case CreateSnapshot(snapshot, branch) => SnapshotStep(app, snapshot, branch);
    case CreateTrial(world, snapshot, trial, run) => TrialStep(app, op, world, snapshot, trial, run);
    case CreateEntity(e, projected, position, profile) =>
      WriteStep(app, e, projected, position, profile, Next(defs, app, op));
  }

  lemma VersionsAfterOther(app: App, op: Step, next: App)
    requires SameLedger(app, next) && BranchStep(app, op, next) && VersionsOk(app.store.branches, app.history)
    ensures VersionsOk(next.store.branches, next.history)
  {
    if id :| NewBranch(app, id, next) { assert Of(app.history, id) == []; }
  }

  lemma BasesAfterOther(app: App, op: Step, next: App)
    requires SameLedger(app, next) && BranchStep(app, op, next) && !(Alters(app, op) && op.record.branch in app.bases)
    requires BasesOk(app.store.branches, app.history, app.bases, app.offsets)
    ensures BasesOk(next.store.branches, next.history, next.bases, next.offsets)
  {
  }

  lemma NewTrialOk(b: Branch)
    requires b.version == 0 && (b.kind == Trial ==> b.base == Some(Hash(b.projections)))
    ensures TrialOk(b, [])
  {
    assert b.kind == Trial ==> Origin(b) == b;
  }

  lemma TrialsAfterOther(app: App, op: Step, next: App)
    requires SameLedger(app, next) && BranchStep(app, op, next)
    requires !(Alters(app, op) && app.store.branches[op.record.branch].kind == Trial)
    requires VersionsOk(app.store.branches, app.history) && TrialsOk(app.store.branches, app.history)
    ensures TrialsOk(next.store.branches, next.history)
  {
    if id :| NewBranch(app, id, next) {
      assert Of(app.history, id) == [];
      NewTrialOk(next.store.branches[id]);
    }
  }

  // A new snapshot of a branch whose version counts its log.
  lemma NewSnapshotOk(live: Branch, h: seq<ReplayRecord>)
    requires live.version == |h|
    ensures SnapshotOk(Manifest(live.world, live.id, |h|, Hash(live.projections)), h, live)
  {
    var m := Manifest(live.world, live.id, |h|, Hash(live.projections));
    assert h[|h|..] == [] && FromSnapshot(live, m) == live;
  }

  lemma SnapshotsAfterSnapshot(app: App, snapshot: nat, branch: nat)
    requires VersionsOk(app.store.branches, app.history)
    requires SnapshotsOk(app.store.branches, app.history, app.snapshots)
    ensures SnapshotsOk(app.store.branches, app.history, Snapshotted(app, snapshot, branch).snapshots)
  {
    if branch in app.store.branches { NewSnapshotOk(app.store.branches[branch], Of(app.history, branch)); }
  }

  lemma SnapshotsAfterOther(app: App, op: Step, next: App)
    requires SameLedger(app, next) && BranchStep(app, op, next) && next.snapshots == app.snapshots
    requires !(Alters(app, op) && Snapped(app, op.record.branch))
    requires SnapshotsOk(app.store.branches, app.history, app.snapshots)
    ensures SnapshotsOk(next.store.branches, next.history, next.snapshots)
  {
    forall s | s in next.snapshots
      ensures var id := next.snapshots[s].branch;
              id in next.store.branches && next.store.branches[id] == app.store.branches[id]
    {
      assert next.snapshots[s].branch in app.store.branches;
    }
  }

  lemma BasesHold(app: App)
    requires BasesOk(app.store.branches, app.history, app.bases, app.offsets)
    ensures Holds(Replaying, app)
  {
    forall id | id in app.store.branches ensures ReplayOf(app, id) == Ok(app.store.branches[id]) {
      if id in app.bases {
        assert BaseOk(app.bases[id], app.offsets[id], Of(app.history, id), app.store.branches[id]);
      }
    }
  }

  lemma OtherKeeps(g: Guarantee, defs: Definitions, app: App, op: Step)
    requires Grounded(g, app) && Holds(g, app) && !op.Submit? && !Breaks(g, defs, app, op)
    ensures Grounded(g, Next(defs, app, op)) && Holds(g, Next(defs, app, op))
  {
    var next := Next(defs, app, op);
    NextBranches(defs, app, op);
    match g
    case Replaying =>
      BasesAfterOther(app, op, next);
      BasesHold(next);
    case Snapshots =>
      VersionsAfterOther(app, op, next);
      if op.CreateSnapshot? {
        SnapshotsAfterSnapshot(app, op.snapshot, op.branch);
        SnapshotStep(app, op.snapshot, op.branch);
      } else {
        SnapshotsAfterOther(app, op, next);
      }
    case Trials =>
      VersionsAfterOther(app, op, next);
      TrialsAfterOther(app, op, next);
  }

  lemma BaseKeeps(g: Guarantee, app: App, id: nat)
    requires Grounded(g, app) && Holds(g, app) && id in app.store.branches
    ensures Grounded(g, WithBase(app, id)) && Holds(g, WithBase(app, id))
  {
    if g == Replaying {
      var h := History(app, id);
      assert h[|h|..] == [];
      assert id !in app.bases ==> BaseOk(app.store.branches[id], |h|, h, app.store.branches[id]);
      BasesHold(WithBase(app, id));
    }
  }

  // One branch gets new projections and one more version and record, and nothing else is touched.
  predicate Grew(app: App, after: App, id: nat, record: ReplayRecord, q: Projections)
    requires id in app.store.branches
  {
    var b := app.store.branches[id];
    && after.store.branches == app.store.branches[id := b.(projections := q, version := b.version + 1)]
    && after.history == app.history[id := Of(app.history, id) + [record]]
    && (after.bases, after.offsets, after.snapshots) == (app.bases, app.offsets, app.snapshots)
  }

  lemma BasesAfterCommit(app: App, after: App, id: nat, record: ReplayRecord, q: Projections)
    requires id in app.store.branches && Grew(app, after, id, record, q)
    requires ApplyAll(app.store.branches[id].projections, record.result.deltas) == Some(q) && record.expected == Hash(q)
    requires BasesOk(app.store.branches, app.history, app.bases, app.offsets)
    ensures BasesOk(after.store.branches, after.history, after.bases, after.offsets)
  {
    BasesGrow(app.store.branches, app.history, app.bases, app.offsets, id, record, q);
  }

  lemma SnapshotsAfterCommit(app: App, after: App, id: nat, record: ReplayRecord, q: Projections)
    requires id in app.store.branches && Grew(app, after, id, record, q)
    requires ApplyAll(app.store.branches[id].projections, record.result.deltas) == Some(q) && record.expected == Hash(q)
    requires SnapshotsOk(app.store.branches, app.history, app.snapshots)
    ensures SnapshotsOk(after.store.branches, after.history, after.snapshots)
  {
    SnapshotsGrow(app.store.branches, app.history, app.snapshots, id, record, q);
  }

  lemma TrialsAfterCommit(app: App, after: App, id: nat, record: ReplayRecord, q: Projections)
    requires id in app.store.branches && Grew(app, after, id, record, q)
    requires ApplyAll(app.store.branches[id].projections, record.result.deltas) == Some(q) && record.expected == Hash(q)
    requires TrialsOk(app.store.branches, app.history)
    ensures TrialsOk(after.store.branches, after.history)
  {
    TrialsGrow(app.store.branches, app.history, id, record, q);
  }

  lemma VersionsAfterCommit(app: App, after: App, id: nat, record: ReplayRecord, q: Projections)
    requires id in app.store.branches && Grew(app, after, id, record, q) && VersionsOk(app.store.branches, app.history)
    ensures VersionsOk(after.store.branches, after.history)
  {
    VersionsGrow(app.store.branches, app.history, id, record, q);
  }

  lemma CommitKeeps(g: Guarantee, app: App, after: App, id: nat, record: ReplayRecord, q: Projections)
    requires id in app.store.branches && Grew(app, after, id, record, q)
    requires ApplyAll(app.store.branches[id].projections, record.result.deltas) == Some(q) && record.expected == Hash(q)
    requires Grounded(g, app) && Holds(g, app) && KeysOk(after.events, after.store.receipts)
    ensures Grounded(g, after) && Holds(g, after)
  {
    if g == Replaying {
      BasesAfterCommit(app, after, id, record, q);
      BasesHold(after);
    } else {
      VersionsAfterCommit(app, after, id, record, q);
      if g == Snapshots { SnapshotsAfterCommit(app, after, id, record, q); }
      else { TrialsAfterCommit(app, after, id, record, q); }
    }
  }

  // The parts of a commit: what the branch and the log become.
  lemma CommitGrows(app: App, p: Proposal, receipt: Receipt, after: App) returns (record: ReplayRecord)
    requires IsCommit(app, p, receipt, after)
    ensures record.result == receipt.result && record.expected == Hash(receipt.stateHash.of)
    ensures Grew(WithBase(app, p.branch), after, p.branch, record, receipt.stateHash.of)
    ensures after.store.receipts == app.store.receipts[KeyFor(p) := receipt]
    ensures after.events == app.events[KeyFor(p) := receipt.event]
  {
    record := ReplayRecord(p, receipt.result, receipt.stateHash);
  }

  lemma CommitKeepsGuarantee(g: Guarantee, app: App, p: Proposal, receipt: Receipt, after: App)
    requires Grounded(g, app) && Holds(g, app) && IsCommit(app, p, receipt, after)
    ensures Grounded(g, after) && Holds(g, after)
  {
    var record := CommitGrows(app, p, receipt, after);
    BaseKeeps(g, app, p.branch);
    KeysGrow(app.events, app.store.receipts, KeyFor(p), receipt);
    CommitKeeps(g, WithBase(app, p.branch), after, p.branch, record, receipt.stateHash.of);
  }

  lemma SubmitKeepsGuarantee(g: Guarantee, defs: Definitions, app: App, p: Proposal)
    requires Grounded(g, app) && Holds(g, app) && EntersAll(defs, app, p)
    ensures Grounded(g, Submitted(defs, app, p).0) && Holds(g, Submitted(defs, app, p).0)
  {
    var receipt := SubmitCases(defs, app, p);
    if receipt.Some? {
      CommitKeepsGuarantee(g, app, p, receipt.value, Submitted(defs, app, p).0);
    } else if p.branch in app.store.branches {
      BaseKeeps(g, app, p.branch);
    }
  }

  lemma InvIsAll(app: App)
    ensures Inv(app) <==> forall g: Guarantee :: Grounded(g, app) && Holds(g, app)
  {
    if Inv(app) { BasesHold(app); }
    if forall g: Guarantee :: Grounded(g, app) && Holds(g, app) {
      assert Grounded(Replaying, app) && Grounded(Snapshots, app);
      assert Holds(Snapshots, app) && Holds(Trials, app);
    }
  }

  /** Submissions, whether accepted, failing or repeated, keep every branch rebuildable. */
  lemma SubmitKeeps(defs: Definitions, app: App, p: Proposal)
    requires Inv(app) && SpawnOnly(defs)
    ensures Inv(Submitted(defs, app, p).0)
  {
    InvIsAll(app);
    SpawnsEnter(defs, app, p);
    forall g: Guarantee ensures Grounded(g, Submitted(defs, app, p).0) && Holds(g, Submitted(defs, app, p).0) {
      SubmitKeepsGuarantee(g, defs, app, p);
    }
    InvIsAll(Submitted(defs, app, p).0);
  }

  lemma NextKeeps(g: Guarantee, defs: Definitions, app: App, op: Step)
    requires Grounded(g, app) && Holds(g, app) && !Breaks(g, defs, app, op)
    requires g == Replaying || Enters(defs, app, op)
    ensures Grounded(g, Next(defs, app, op)) && Holds(g, Next(defs, app, op))
  {
    if op.Submit? {
      SubmitKeepsGuarantee(g, defs, app, op.proposal);
    } else {
      OtherKeeps(g, defs, app, op);
    }
  }

  /* ---- What breaks a guarantee does break it ---- */

  /** A direct write leaves the branch replayable if and only if there is no base yet or nothing was really written. */
  lemma DirectWriteExact(app: App, e: EntityRecord, projected: Fields, position: Fields, profile: Fields)
    requires Writes(app, e) && ReplayOf(app, e.branch) == Ok(app.store.branches[e.branch])
    ensures var after := EntityCreated(app, e, projected, position, profile);
            var p := app.store.branches[e.branch].projections;
            ReplayOf(after, e.branch) == Ok(after.store.branches[e.branch])
            <==> e.branch !in app.bases || Written(p, e.entity, projected, position, profile) == p
  {
  }

  /** It leaves a snapshot of the branch rebuilding the branch if and only if nothing was really written. */
  lemma SnapshotWriteExact(app: App, e: EntityRecord, projected: Fields, position: Fields, profile: Fields, m: Manifest)
    requires Writes(app, e) && SnapshotOk(m, Of(app.history, e.branch), app.store.branches[e.branch])
    ensures var after := EntityCreated(app, e, projected, position, profile);
            var p := app.store.branches[e.branch].projections;
            SnapshotOk(m, Of(after.history, e.branch), after.store.branches[e.branch])
            <==> Written(p, e.entity, projected, position, profile) == p
  {
    var live := app.store.branches[e.branch];
    var q := Written(live.projections, e.entity, projected, position, profile);
    assert FromSnapshot(live.(projections := q), m) == FromSnapshot(live, m);
  }

  /** And the same for the origin of a trial. */
  lemma TrialWriteExact(app: App, e: EntityRecord, projected: Fields, position: Fields, profile: Fields)
    requires Writes(app, e) && app.store.branches[e.branch].kind == Trial
    requires TrialOk(app.store.branches[e.branch], Of(app.history, e.branch))
    ensures var after := EntityCreated(app, e, projected, position, profile);
            var p := app.store.branches[e.branch].projections;
            TrialOk(after.store.branches[e.branch], Of(after.history, e.branch))
            <==> Written(p, e.entity, projected, position, profile) == p
  {
    var live := app.store.branches[e.branch];
    var q := Written(live.projections, e.entity, projected, position, profile);
    assert Origin(live.(projections := q)) == Origin(live);
  }

  lemma ReplayReadsTheLedger(app: App, other: App, branch: nat)
    requires branch in app.store.branches && branch in other.store.branches && branch in app.bases
    requires (app.bases, app.offsets, app.history) == (other.bases, other.offsets, other.history)
    ensures ReplayOf(other, branch) == ReplayOf(app, branch)
  {
  }

  // Committed to the store, but the entity bookkeeping stopped before the ledger was written.
  lemma UnloggedCommit(defs: Definitions, app: App, p: Proposal)
    requires Grounded(Replaying, app) && !EntersAll(defs, app, p)
    ensures var after := Submitted(defs, app, p).0;
            && p.branch in app.store.branches && p.branch in after.store.branches
            && ReplayOf(after, p.branch) == Ok(app.store.branches[p.branch])
            && after.store.branches[p.branch].version == app.store.branches[p.branch].version + 1
  {
    SubmittedOkIff(defs, app, p);
    SubmitCommits(defs, app, p);
    var based := WithBase(app, p.branch);
    BasesHold(app);
    BaseKeeps(Replaying, app, p.branch);
    ReplayReadsTheLedger(based, Submitted(defs, app, p).0, p.branch);
  }

  /**
   * A command that takes effect leaves its branch replayable if and only if each of its entity mutations names a free
   * entity with a known controller, if any, or repeats the record already there.
   */
  lemma CommitRebuildsIff(defs: Definitions, app: App, p: Proposal)
    requires Grounded(Replaying, app) && Precheck(app, p).Ok?
    requires TakesEffect(defs, app.store, Submission(p, Precheck(app, p).value))
    ensures var after := Submitted(defs, app, p).0;
            var receipt := Answer(defs, app.store, Submission(p, Precheck(app, p).value)).value;
            p.branch in after.store.branches &&
            (ReplayOf(after, p.branch) == Ok(after.store.branches[p.branch])
             <==> Enterable(Roster(app.entities, app.authorities), p, Entering(receipt)))
  {
    SubmitCommits(defs, app, p);
    if EntersAll(defs, app, p) {
      BasesHold(app);
      SubmitKeepsGuarantee(Replaying, defs, app, p);
    } else {
      UnloggedCommit(defs, app, p);
    }
  }

  lemma BreaksReplay(defs: Definitions, app: App, op: Step)
    requires Grounded(Replaying, app) && Breaks(Replaying, defs, app, op)
    ensures !Holds(Replaying, Next(defs, app, op))
  {
    BasesHold(app);
    if op.Submit? {
      UnloggedCommit(defs, app, op.proposal);
    } else {
      DirectWriteExact(app, op.record, op.projected, op.position, op.profile);
    }
  }

  lemma BreaksSnapshots(defs: Definitions, app: App, op: Step)
    requires Holds(Snapshots, app) && Breaks(Snapshots, defs, app, op)
    ensures !Holds(Snapshots, Next(defs, app, op))
  {
    var s :| s in app.snapshots && app.snapshots[s].branch == op.record.branch;
    SnapshotWriteExact(app, op.record, op.projected, op.position, op.profile, app.snapshots[s]);
  }

  lemma BreaksTrials(defs: Definitions, app: App, op: Step)
    requires Holds(Trials, app) && Breaks(Trials, defs, app, op)
    ensures !Holds(Trials, Next(defs, app, op))
  {
    TrialWriteExact(app, op.record, op.projected, op.position, op.profile);
  }

  lemma BreaksIt(g: Guarantee, defs: Definitions, app: App, op: Step)
    requires Grounded(g, app) && Holds(g, app) && Breaks(g, defs, app, op)
    ensures !Holds(g, Next(defs, app, op))
  {
    match g
    case Replaying => BreaksReplay(defs, app, op);
    case Snapshots => BreaksSnapshots(defs, app, op);
    case Trials => BreaksTrials(defs, app, op);
  }

  /* ---- Whole runs ---- */

  lemma {:induction false} ThroughoutIff(g: Guarantee, defs: Definitions, app: App, ops: seq<Step>)
    requires Grounded(g, app) && Holds(g, app) && (g == Replaying || AllEnter(defs, app, ops))
    ensures HoldsThroughout(g, defs, app, ops) <==> Spared(g, defs, app, ops)
    ensures Spared(g, defs, app, ops) ==> Grounded(g, Ran(defs, app, ops)) && Holds(g, Ran(defs, app, ops))
    decreases |ops|
  {
    if ops != [] {
      if Breaks(g, defs, app, ops[0]) {
        BreaksIt(g, defs, app, ops[0]);
      } else {
        NextKeeps(g, defs, app, ops[0]);
        ThroughoutIff(g, defs, Next(defs, app, ops[0]), ops[1..]);
      }
    }
  }

  /**
   * From nothing, replay gives every live branch throughout a run if and only if no direct write really changes a
   * branch that has a base and no command that takes effect has mutations that cannot be entered. If all mutations can
   * be entered, every snapshot rebuilds its branch throughout if and only if no direct write really changes a branch
   * with a snapshot, and every trial's origin does if and only if none really changes a trial.
   */
  lemma GuaranteeIff(g: Guarantee, defs: Definitions, ops: seq<Step>)
    requires g == Replaying || AllEnter(defs, EMPTY, ops)
    ensures HoldsThroughout(g, defs, EMPTY, ops) <==> Spared(g, defs, EMPTY, ops)
  {
    ThroughoutIff(g, defs, EMPTY, ops);
  }

  /** In such a run, replaying a branch in the end gives exactly its live projections and version. */
  lemma ReplayRebuilds(defs: Definitions, ops: seq<Step>, branch: nat)
    requires Spared(Replaying, defs, EMPTY, ops) && branch in Ran(defs, EMPTY, ops).store.branches
    ensures var app := Ran(defs, EMPTY, ops);
            ReplayOf(app, branch) == Ok(app.store.branches[branch])
  {
    ThroughoutIff(Replaying, defs, EMPTY, ops);
  }

  /** So does the log suffix of a snapshot, taken from the number of commands it went through. */
  lemma SnapshotRebuilds(defs: Definitions, ops: seq<Step>, snapshot: nat)
    requires AllEnter(defs, EMPTY, ops) && Spared(Snapshots, defs, EMPTY, ops)
    requires snapshot in Ran(defs, EMPTY, ops).snapshots
    ensures var app := Ran(defs, EMPTY, ops);
            var m := app.snapshots[snapshot];
            var h := History(app, m.branch);
            && m.branch in app.store.branches && m.through <= |h|
            && Replayed(FromSnapshot(app.store.branches[m.branch], m), h[m.through..]) ==
               Ok(app.store.branches[m.branch])
  {
    ThroughoutIff(Snapshots, defs, EMPTY, ops);
    var app := Ran(defs, EMPTY, ops);
    var m := app.snapshots[snapshot];
    assert SnapshotOk(m, Of(app.history, m.branch), app.store.branches[m.branch]);
  }

  /** And a trial is rebuilt by its whole log from the state it was opened on. */
  lemma TrialRebuilds(defs: Definitions, ops: seq<Step>, trial: nat)
    requires AllEnter(defs, EMPTY, ops) && Spared(Trials, defs, EMPTY, ops)
    requires trial in Ran(defs, EMPTY, ops).store.branches && Ran(defs, EMPTY, ops).store.branches[trial].kind == Trial
    ensures var app := Ran(defs, EMPTY, ops);
            var live := app.store.branches[trial];
            live.base.Some? && Replayed(Origin(live), History(app, trial)) == Ok(live)
  {
    ThroughoutIff(Trials, defs, EMPTY, ops);
    var app := Ran(defs, EMPTY, ops);
    assert TrialOk(app.store.branches[trial], Of(app.history, trial));
  }

  lemma CommitKeepsLedger(app: App, p: Proposal, receipt: Receipt, after: App)
    requires LedgerOk(app) && IsCommit(app, p, receipt, after)
    ensures LedgerOk(after)
  {
    var record := CommitGrows(app, p, receipt, after);
    KeysGrow(app.events, app.store.receipts, KeyFor(p), receipt);
    VersionsAfterCommit(WithBase(app, p.branch), after, p.branch, record, receipt.stateHash.of);
  }

  lemma LedgerStays(defs: Definitions, app: App, op: Step)
    requires Enters(defs, app, op) && LedgerOk(app)
    ensures LedgerOk(Next(defs, app, op))
  {
    if op.Submit? {
      var receipt := SubmitCases(defs, app, op.proposal);
      if receipt.Some? { CommitKeepsLedger(app, op.proposal, receipt.value, Next(defs, app, op)); }
    } else {
      NextBranches(defs, app, op);
      VersionsAfterOther(app, op, Next(defs, app, op));
    }
  }

  /** Whatever is written directly, the version of a branch counts its log in every run. */
  lemma {:induction false} VersionsCountLogs(defs: Definitions, app: App, ops: seq<Step>)
    requires AllEnter(defs, app, ops) && LedgerOk(app)
    ensures LedgerOk(Ran(defs, app, ops))
    decreases |ops|
  {
    if ops != [] {
      LedgerStays(defs, app, ops[0]);
      VersionsCountLogs(defs, Next(defs, app, ops[0]), ops[1..]);
    }
  }

  /** A run that breaks none of the three keeps the whole invariant. */
  lemma RanKeeps(defs: Definitions, ops: seq<Step>)
    requires AllEnter(defs, EMPTY, ops) && forall g: Guarantee :: Spared(g, defs, EMPTY, ops)
    ensures Inv(Ran(defs, EMPTY, ops))
  {
    assert Spared(Replaying, defs, EMPTY, ops) && Spared(Snapshots, defs, EMPTY, ops);
    assert Spared(Trials, defs, EMPTY, ops);
    ThroughoutIff(Replaying, defs, EMPTY, ops);
    ThroughoutIff(Snapshots, defs, EMPTY, ops);
    ThroughoutIff(Trials, defs, EMPTY, ops);
  }

  /* ---- Two runs that break replay ---- */

  const CAPTAIN := Actor(3, {"action.commit"}, {})

  const SETUP: seq<Step> := [CreateWorld(0, 1, map[]), CreateRun(2, 0, 1), GrantAuthority(0, CAPTAIN)]

  const GROUND := Branch(0, 1, Canonical, map[], None, 0)

  // The application after the set-up.
  const PREPARED := App(Store(map[1 := GROUND], map[]), map[0 := 1], map[2 := RunRecord(0, 1)], map[(0, 3) := CAPTAIN],
                        map[], map[], map[], map[], map[], map[])

  // A command of a type nobody registered: it fails, but it makes the branch's base be taken.
  const NOBODY := Proposal("nobody", 0, 1, 2, 3, None, Plain(map[]), "once")

  const LATE := EntityRecord(4, 0, 1, "NPC", "Ada", None, map[], map[])

  // A command that creates an entity for a controller nobody knows.
  const HIRE := "hire"

  const STRAY := Mutation(4, "NPC", "Ada", map[], map[], Some(9))

  const HIRING: Definition := Definition(
    HIRE, {}, {Canonical}, (p, b) => Ok(CommandResult(true, map[], [], [STRAY])), parameters => Some(parameters),
    fields => true, false, (p, r, before, after) => Some([]))

  const HIRED := Proposal(HIRE, 0, 1, 2, 3, None, Plain(map[]), "once")

  lemma {:induction false} RanConcat(defs: Definitions, app: App, a: seq<Step>, b: seq<Step>)
    ensures Ran(defs, app, a + b) == Ran(defs, Ran(defs, app, a), b)
    decreases |a|
  {
    if a == [] {
      assert a + b == b;
    } else {
      assert (a + b)[0] == a[0] && (a + b)[1..] == a[1..] + b;
      RanConcat(defs, Next(defs, app, a[0]), a[1..], b);
    }
  }

  lemma RanMore(defs: Definitions, app: App, ops: seq<Step>, op: Step)
    ensures Ran(defs, app, ops + [op]) == Next(defs, Ran(defs, app, ops), op)
  {
    RanConcat(defs, app, ops, [op]);
    assert [op][1..] == [];
  }

  lemma SetupPrepares(defs: Definitions)
    ensures Ran(defs, EMPTY, SETUP) == PREPARED
  {
    RanMore(defs, EMPTY, [], SETUP[0]);
    RanMore(defs, EMPTY, [SETUP[0]], SETUP[1]);
    RanMore(defs, EMPTY, [SETUP[0], SETUP[1]], SETUP[2]);
    assert [] + [SETUP[0]] == [SETUP[0]] && [SETUP[0]] + [SETUP[1]] == [SETUP[0], SETUP[1]];
    assert [SETUP[0], SETUP[1]] + [SETUP[2]] == SETUP;
  }

  lemma FailureTakesBase(app: App)
    requires app == Next(map[], PREPARED, Submit(NOBODY))
    ensures 1 in app.store.branches && app.store.branches[1] == GROUND && 1 in app.bases && Writes(app, LATE)
    ensures ReplayOf(app, 1) == Ok(GROUND)
  {
    assert app == WithBase(PREPARED, 1);
  }

  lemma LateWriteDiffers(ops: seq<Step>, app: App, write: Step)
    requires app == Ran(map[], EMPTY, ops) && write == CreateEntity(LATE, map[], map[], map[])
    requires 1 in app.store.branches && app.store.branches[1] == GROUND && 1 in app.bases && Writes(app, LATE)
    requires ReplayOf(app, 1) == Ok(GROUND)
    ensures var after := Ran(map[], EMPTY, ops + [write]);
            1 in after.store.branches && ReplayOf(after, 1).Ok? && ReplayOf(after, 1) != Ok(after.store.branches[1])
  {
    RanMore(map[], EMPTY, ops, write);
    DirectWriteExact(app, LATE, map[], map[], map[]);
    assert ENTITIES in Written(map[], 4, map[], map[], map[]);
  }

  /**
   * From nothing: a world, a run, an actor, one failed command, and an entity written directly; then replay differs.
   */
  lemma LateWriteBreaksReplay()
    ensures var app := Ran(map[], EMPTY, SETUP + [Submit(NOBODY)] + [CreateEntity(LATE, map[], map[], map[])]);
            && 1 in app.store.branches && ReplayOf(app, 1).Ok?
            && ReplayOf(app, 1) != Ok(app.store.branches[1])
  {
    var ops := SETUP + [Submit(NOBODY)];
    SetupPrepares(map[]);
    RanMore(map[], EMPTY, SETUP, Submit(NOBODY));
    FailureTakesBase(Ran(map[], EMPTY, ops));
    LateWriteDiffers(ops, Ran(map[], EMPTY, ops), CreateEntity(LATE, map[], map[], map[]));
  }

  lemma HiringTakesEffect()
    ensures Precheck(PREPARED, HIRED) == Ok(CAPTAIN)
    ensures TakesEffect(map[HIRE := HIRING], PREPARED.store, Submission(HIRED, CAPTAIN))
    ensures Answer(map[HIRE := HIRING], PREPARED.store, Submission(HIRED, CAPTAIN)).value.result.mutations == [STRAY]
    ensures Answer(map[HIRE := HIRING], PREPARED.store, Submission(HIRED, CAPTAIN)).value.result.accepted
  {
    assert Authorize(map[HIRE := HIRING], HIRED, CAPTAIN) == Ok(HIRED);
  }

  /** From nothing: a command commits, but its entity is for an unknown controller; then replay differs. */
  lemma StrayMutationBreaksReplay()
    ensures var defs := map[HIRE := HIRING];
            var app := Ran(defs, EMPTY, SETUP + [Submit(HIRED)]);
            && 1 in app.store.branches && Submitted(defs, PREPARED, HIRED).1.Err?
            && ReplayOf(app, 1) == Ok(GROUND) && app.store.branches[1].version == 1
  {
    var defs := map[HIRE := HIRING];
    SetupPrepares(defs);
    RanMore(defs, EMPTY, SETUP, Submit(HIRED));
    HiringTakesEffect();
    assert (1, STRAY.entity) !in PREPARED.entities;
    assert !Enterable(Roster(PREPARED.entities, PREPARED.authorities), HIRED, [STRAY]) by {
      assert [STRAY][0] == STRAY;
    }
    SubmittedOkIff(defs, PREPARED, HIRED);
    UnloggedCommit(defs, PREPARED, HIRED);
  }
}
