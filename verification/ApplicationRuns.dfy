/** Over whole runs of the application: replay and snapshots always rebuild the live branches. */
module ApplicationRuns {
  import opened Wrappers
  import opened KernelState
  import opened CommandBus
  import opened BusRuns
  import opened Replay
  import opened Application

  /* ---- What holds after every operation ---- */

  type Branches = map<nat, Branch>

  type Histories = map<nat, seq<ReplayRecord>>

  function Of(history: Histories, id: nat): seq<ReplayRecord> {
    if id in history then history[id] else []
  }

  // The branch as a snapshot remembers it.
  function FromSnapshot(live: Branch, m: Manifest): Branch {
    live.(projections := m.state.of, version := m.through)
  }

  // A trial as it started out.
  function Origin(live: Branch): Branch
    requires live.base.Some?
  {
    live.(projections := live.base.value.of, version := 0)
  }

  ghost predicate TrialOk(b: Branch, h: seq<ReplayRecord>) {
    b.kind == Trial ==> b.base.Some? && Rebuilds(Origin(b), h, b)
  }

  ghost predicate BaseOk(base: Branch, offset: nat, h: seq<ReplayRecord>, live: Branch) {
    offset <= |h| && Rebuilds(base, h[offset..], live)
  }

  ghost predicate SnapshotOk(m: Manifest, h: seq<ReplayRecord>, live: Branch) {
    m.through <= |h| && Rebuilds(FromSnapshot(live, m), h[m.through..], live)
  }

  // Every version counts the log.
  ghost predicate VersionsOk(branches: Branches, history: Histories) {
    && (forall id :: id in history ==> id in branches)
    && (forall id :: id in branches ==> branches[id].id == id && branches[id].version == |Of(history, id)|)
  }

  ghost predicate TrialsOk(branches: Branches, history: Histories) {
    forall id :: id in branches ==> TrialOk(branches[id], Of(history, id))
  }

  ghost predicate BasesOk(branches: Branches, history: Histories, bases: Branches, offsets: map<nat, nat>) {
    forall id :: id in bases ==>
      id in branches && id in offsets && BaseOk(bases[id], offsets[id], Of(history, id), branches[id])
  }

  ghost predicate SnapshotsOk(branches: Branches, history: Histories, snapshots: map<nat, Manifest>) {
    forall s :: s in snapshots ==>
      snapshots[s].branch in branches &&
      SnapshotOk(snapshots[s], Of(history, snapshots[s].branch), branches[snapshots[s].branch])
  }

  ghost predicate KeysOk(events: map<ReceiptKey, Event>, receipts: map<ReceiptKey, Receipt>) {
    && (forall k :: k in events <==> k in receipts)
    && (forall k :: k in receipts ==> receipts[k].event.id == k)
  }

  // The bookkeeping every run keeps: versions count the log, and every receipt has its event.
  ghost predicate LedgerOk(app: App) {
    VersionsOk(app.store.branches, app.history) && KeysOk(app.events, app.store.receipts)
  }

  ghost predicate Inv(app: App) {
    && LedgerOk(app)
    && TrialsOk(app.store.branches, app.history)
    && BasesOk(app.store.branches, app.history, app.bases, app.offsets)
    && SnapshotsOk(app.store.branches, app.history, app.snapshots)
  }

  // The registered handlers create entity records only for a spawn, and then just the one it names.
  ghost predicate MutationsFit(p: Proposal, mutations: seq<Mutation>) {
    if p.commandType != SPAWN then mutations == []
    else SpawnTarget(p.parameters).Some? ==>
           |mutations| == 1 && SpawnTarget(p.parameters) == Some((mutations[0].entity, mutations[0].controller))
  }

  ghost predicate SpawnOnly(defs: Definitions) {
    forall p: Proposal, q: Proposal, b: Branch ::
      p.commandType in defs && defs[p.commandType].normalize(p.parameters) == Some(q.parameters)
      && q == p.(parameters := q.parameters) && defs[p.commandType].handler(q, b).Ok? ==>
        MutationsFit(p, defs[p.commandType].handler(q, b).value.mutations)
  }

  /* ---- One operation ---- */

  lemma TrialGrows(b: Branch, h: seq<ReplayRecord>, record: ReplayRecord, q: Projections)
    requires ApplyAll(b.projections, record.result.deltas) == Some(q) && record.expected == Hash(q)
    requires TrialOk(b, h)
    ensures TrialOk(b.(projections := q, version := b.version + 1), h + [record])
  {
    if b.kind == Trial { RebuildsMore(Origin(b), h, b, record, q); }
  }

  lemma BaseGrows(base: Branch, offset: nat, b: Branch, h: seq<ReplayRecord>, record: ReplayRecord, q: Projections)
    requires ApplyAll(b.projections, record.result.deltas) == Some(q) && record.expected == Hash(q)
    requires BaseOk(base, offset, h, b)
    ensures BaseOk(base, offset, h + [record], b.(projections := q, version := b.version + 1))
  {
    RebuildsMore(base, h[offset..], b, record, q);
    assert (h + [record])[offset..] == h[offset..] + [record];
  }

  lemma SnapshotGrows(m: Manifest, b: Branch, h: seq<ReplayRecord>, record: ReplayRecord, q: Projections)
    requires ApplyAll(b.projections, record.result.deltas) == Some(q) && record.expected == Hash(q)
    requires SnapshotOk(m, h, b)
    ensures SnapshotOk(m, h + [record], b.(projections := q, version := b.version + 1))
  {
    RebuildsMore(FromSnapshot(b, m), h[m.through..], b, record, q);
    assert (h + [record])[m.through..] == h[m.through..] + [record];
  }

  lemma VersionsGrow(branches: Branches, history: Histories, id: nat, record: ReplayRecord, q: Projections)
    requires VersionsOk(branches, history) && id in branches
    ensures VersionsOk(
              branches[id := branches[id].(projections := q, version := branches[id].version + 1)],
              history[id := Of(history, id) + [record]])
  {
  }

  lemma TrialsGrow(branches: Branches, history: Histories, id: nat, record: ReplayRecord, q: Projections)
    requires TrialsOk(branches, history) && id in branches
    requires ApplyAll(branches[id].projections, record.result.deltas) == Some(q) && record.expected == Hash(q)
    ensures TrialsOk(
              branches[id := branches[id].(projections := q, version := branches[id].version + 1)],
              history[id := Of(history, id) + [record]])
  {
    TrialGrows(branches[id], Of(history, id), record, q);
  }

  lemma BasesGrow(branches: Branches, history: Histories, bases: Branches, offsets: map<nat, nat>,
                  id: nat, record: ReplayRecord, q: Projections)
    requires BasesOk(branches, history, bases, offsets) && id in branches
    requires ApplyAll(branches[id].projections, record.result.deltas) == Some(q) && record.expected == Hash(q)
    ensures BasesOk(
              branches[id := branches[id].(projections := q, version := branches[id].version + 1)],
              history[id := Of(history, id) + [record]], bases, offsets)
  {
    if id in bases { BaseGrows(bases[id], offsets[id], branches[id], Of(history, id), record, q); }
  }

  lemma SnapshotsGrow(branches: Branches, history: Histories, snapshots: map<nat, Manifest>,
                      id: nat, record: ReplayRecord, q: Projections)
    requires SnapshotsOk(branches, history, snapshots) && id in branches
    requires ApplyAll(branches[id].projections, record.result.deltas) == Some(q) && record.expected == Hash(q)
    ensures SnapshotsOk(
              branches[id := branches[id].(projections := q, version := branches[id].version + 1)],
              history[id := Of(history, id) + [record]], snapshots)
  {
    forall s | s in snapshots && snapshots[s].branch == id
      ensures SnapshotOk(snapshots[s], Of(history, id) + [record],
                         branches[id].(projections := q, version := branches[id].version + 1))
    {
      SnapshotGrows(snapshots[s], branches[id], Of(history, id), record, q);
    }
  }

  lemma ExecutedResult(defs: Definitions, s: Store, p: Proposal, actor: Actor)
    requires SpawnOnly(defs) && KeyFor(p) !in s.receipts && Executed(defs, s, p, actor).1.Ok?
    ensures MutationsFit(p, Executed(defs, s, p, actor).1.value.result.mutations)
    ensures Executed(defs, s, p, actor).1.value.event.id == KeyFor(p)
  {
    var q := Authorize(defs, p, actor).value;
    assert q == p.(parameters := q.parameters);
  }

  lemma EnterableAfterFirst(roster: Roster, p: Proposal, mutations: seq<Mutation>, next: Roster)
    requires mutations != []
    requires var m := mutations[0];
             && (p.branch, m.entity) in next.entities && next.entities[(p.branch, m.entity)] == RecordFor(p, m)
             && next.entities == roster.entities[(p.branch, m.entity) := RecordFor(p, m)]
             && next.authorities.Keys == roster.authorities.Keys
             && ((p.branch, m.entity) !in roster.entities && m.controller.Some? ==>
                   (p.world, m.controller.value) in roster.authorities)
             && ((p.branch, m.entity) in roster.entities ==>
                   roster.entities[(p.branch, m.entity)] == RecordFor(p, m))
    ensures Enterable(roster, p, mutations) <==> Enterable(next, p, mutations[1..])
  {
    var m, rest := mutations[0], mutations[1..];
    if Enterable(roster, p, mutations) {
      forall i | 0 <= i < |rest|
        ensures (p.branch, rest[i].entity) in next.entities ==>
                  next.entities[(p.branch, rest[i].entity)] == RecordFor(p, rest[i])
        ensures (p.branch, rest[i].entity) !in next.entities && rest[i].controller.Some? ==>
                  (p.world, rest[i].controller.value) in next.authorities
        ensures forall j :: 0 <= j < i && rest[j].entity == rest[i].entity ==>
                  RecordFor(p, rest[j]) == RecordFor(p, rest[i])
      {
        assert rest[i] == mutations[i + 1];
        assert mutations[0].entity == mutations[i + 1].entity ==>
            RecordFor(p, mutations[0]) == RecordFor(p, mutations[i + 1]);
        forall j | 0 <= j < i && rest[j].entity == rest[i].entity
          ensures RecordFor(p, rest[j]) == RecordFor(p, rest[i])
        {
          assert rest[j] == mutations[j + 1];
        }
      }
    }
    if Enterable(next, p, rest) {
      forall i | 0 <= i < |mutations| && i > 0 ensures mutations[i] == rest[i - 1] {}
      forall i, j | 0 <= j < i < |mutations| && mutations[j].entity == mutations[i].entity
        ensures RecordFor(p, mutations[j]) == RecordFor(p, mutations[i])
      {
        if j > 0 { assert mutations[j] == rest[j - 1]; }
      }
    }
  }

  /** The entity bookkeeping of a command succeeds if and only if all its mutations can be entered. */
  lemma {:induction false} RecordedIff(roster: Roster, p: Proposal, mutations: seq<Mutation>)
    ensures Recorded(roster, p, mutations).1.None? <==> Enterable(roster, p, mutations)
    decreases |mutations|
  {
    if mutations != [] {
      var m := mutations[0];
      var key := (p.branch, m.entity);
      if key in roster.entities && roster.entities[key] != RecordFor(p, m) {
        assert !Enterable(roster, p, mutations);
      } else if key !in roster.entities && m.controller.Some? && (p.world, m.controller.value) !in roster.authorities {
        assert !Enterable(roster, p, mutations);
      } else {
        var authorities := if key in roster.entities || m.controller.None? then roster.authorities
                           else Control(roster.authorities, p.world, m.controller.value, m.entity);
        var next := Roster(roster.entities[key := RecordFor(p, m)], authorities);
        assert key in roster.entities ==> next == roster;
        EnterableAfterFirst(roster, p, mutations, next);
        RecordedIff(next, p, mutations[1..]);
      }
    }
  }

  // After a spawn's checks, its mutation can be entered.
  lemma SpawnEnters(app: App, p: Proposal, receipt: Receipt)
    requires Precheck(app, p).Ok? && MutationsFit(p, receipt.result.mutations)
    ensures Enterable(Roster(app.entities, app.authorities), p, Entering(receipt))
  {
  }

  // The store after a commit: the branch one version on, and the receipt.
  function Published(s: Store, p: Proposal, receipt: Receipt): Store
    requires p.branch in s.branches
  {
    var b := s.branches[p.branch];
    Store(s.branches[p.branch := b.(projections := receipt.stateHash.of, version := b.version + 1)],
          s.receipts[KeyFor(p) := receipt])
  }

  // The event and the replay record that a commit leaves in the ledger.
  function Ledgered(app: App, p: Proposal, receipt: Receipt): App {
    app.(events := app.events[receipt.event.id := receipt.event],
         history := app.history[
           p.branch := Of(app.history, p.branch) + [ReplayRecord(p, receipt.result, receipt.stateHash)]])
  }

  function Committed(app: App, p: Proposal, receipt: Receipt): App
    requires p.branch in app.store.branches
  {
    Ledgered(app.(store := Published(app.store, p, receipt)), p, receipt)
  }

  lemma KeysGrow(events: map<ReceiptKey, Event>, receipts: map<ReceiptKey, Receipt>, key: ReceiptKey, receipt: Receipt)
    requires KeysOk(events, receipts) && receipt.event.id == key
    ensures KeysOk(events[key := receipt.event], receipts[key := receipt])
  {
  }

  // The ledger half: one record appended if the bookkeeping succeeds, none otherwise.
  lemma LoggedShape(app: App, p: Proposal, receipt: Receipt)
    requires receipt.event.id !in app.events
    ensures var (after, failure) := Logged(app, p, receipt);
            after == (if failure.None? then Ledgered(app, p, receipt) else app).(
              entities := after.entities, authorities := after.authorities)
  {
  }

  // The store half: the branch and the receipt change, and the changed store is what a commit writes.
  lemma StoreFresh(defs: Definitions, s: Store, x: Submission)
    requires TakesEffect(defs, s, x)
    ensures var id := x.proposal.branch;
            var receipt := Answer(defs, s, x).value;
            && id in s.branches
            && ApplyAll(s.branches[id].projections, receipt.result.deltas) == Some(receipt.stateHash.of)
            && After(defs, s, x) == Published(s, x.proposal, receipt)
  {
    StepEffect(defs, s, x);
    var id := x.proposal.branch;
    var t := After(defs, s, x);
    assert t.branches == s.branches[id := t.branches[id]];
  }

  // A submission that takes effect publishes its commit, then logs it.
  lemma SubmitShape(defs: Definitions, app: App, p: Proposal)
    requires Precheck(app, p).Ok?
    requires TakesEffect(defs, app.store, Submission(p, Precheck(app, p).value))
    ensures p.branch in app.store.branches
    ensures var receipt := Answer(defs, app.store, Submission(p, Precheck(app, p).value)).value;
            var (logged, failure) := Logged(WithBase(app, p.branch).(store := Published(app.store, p, receipt)), p,
                                            receipt);
            && receipt.event.id == KeyFor(p)
            && ApplyAll(app.store.branches[p.branch].projections, receipt.result.deltas) == Some(receipt.stateHash.of)
            && Submitted(defs, app, p) == (logged, if failure.Some? then Err(failure.value) else Ok(receipt))
  {
    var x := Submission(p, Precheck(app, p).value);
    StoreFresh(defs, app.store, x);
    NormalizedKeepsKey(defs, x);
  }

  /** A submission that takes effect is exactly one commit; with its bookkeeping, it is also one ledger entry. */
  lemma SubmitCommits(defs: Definitions, app: App, p: Proposal)
    requires KeysOk(app.events, app.store.receipts) && Precheck(app, p).Ok?
    requires TakesEffect(defs, app.store, Submission(p, Precheck(app, p).value))
    ensures p.branch in app.store.branches
    ensures var receipt := Answer(defs, app.store, Submission(p, Precheck(app, p).value)).value;
            var (after, answer) := Submitted(defs, app, p);
            var based := WithBase(app, p.branch);
            && receipt.event.id == KeyFor(p)
            && ApplyAll(app.store.branches[p.branch].projections, receipt.result.deltas) == Some(receipt.stateHash.of)
            && after == (if answer.Ok? then Committed(based, p, receipt)
                         else based.(store := Published(app.store, p, receipt))).(
                 entities := after.entities, authorities := after.authorities)
  {
    SubmitShape(defs, app, p);
    var receipt := Answer(defs, app.store, Submission(p, Precheck(app, p).value)).value;
    LoggedShape(WithBase(app, p.branch).(store := Published(app.store, p, receipt)), p, receipt);
  }

  // The submission's entity mutations, if it takes effect, can all be entered.
  predicate EntersAll(defs: Definitions, app: App, p: Proposal) {
    Precheck(app, p).Ok? && TakesEffect(defs, app.store, Submission(p, Precheck(app, p).value)) ==>
      Enterable(Roster(app.entities, app.authorities), p,
                Entering(Answer(defs, app.store, Submission(p, Precheck(app, p).value)).value))
  }

  lemma SubmittedOkIff(defs: Definitions, app: App, p: Proposal)
    requires KeysOk(app.events, app.store.receipts) && Precheck(app, p).Ok?
    requires TakesEffect(defs, app.store, Submission(p, Precheck(app, p).value))
    ensures Submitted(defs, app, p).1.Ok? <==> EntersAll(defs, app, p)
  {
    var receipt := Answer(defs, app.store, Submission(p, Precheck(app, p).value)).value;
    SubmitShape(defs, app, p);
    RecordedIff(Roster(app.entities, app.authorities), p, Entering(receipt));
  }

  // With handlers that create just the spawned entity, the bookkeeping always succeeds.
  lemma SpawnsEnter(defs: Definitions, app: App, p: Proposal)
    requires SpawnOnly(defs)
    ensures EntersAll(defs, app, p)
  {
    if Precheck(app, p).Ok? && TakesEffect(defs, app.store, Submission(p, Precheck(app, p).value)) {
      var x := Submission(p, Precheck(app, p).value);
      ExecutedResult(defs, app.store, p, x.actor);
      SpawnEnters(app, p, Answer(defs, app.store, x).value);
    }
  }

  lemma CommitOf(defs: Definitions, app: App, p: Proposal)
    requires KeysOk(app.events, app.store.receipts) && Precheck(app, p).Ok? && EntersAll(defs, app, p)
    requires TakesEffect(defs, app.store, Submission(p, Precheck(app, p).value))
    ensures IsCommit(app, p, Answer(defs, app.store, Submission(p, Precheck(app, p).value)).value,
                     Submitted(defs, app, p).0)
  {
    SubmittedOkIff(defs, app, p);
    SubmitCommits(defs, app, p);
  }

  // The application after exactly one commit with its ledger entry.
  ghost predicate IsCommit(app: App, p: Proposal, receipt: Receipt, after: App) {
    && p.branch in app.store.branches && receipt.event.id == KeyFor(p)
    && ApplyAll(app.store.branches[p.branch].projections, receipt.result.deltas) == Some(receipt.stateHash.of)
    && after == Committed(WithBase(app, p.branch), p, receipt).(
                  entities := after.entities, authorities := after.authorities)
  }

  /** So a submission changes nothing, takes a base, or makes one commit on a branch that has its base. */
  lemma SubmitCases(defs: Definitions, app: App, p: Proposal) returns (receipt: Option<Receipt>)
    requires KeysOk(app.events, app.store.receipts) && EntersAll(defs, app, p)
    ensures var after := Submitted(defs, app, p).0;
            if receipt.Some? then IsCommit(app, p, receipt.value, after)
            else after == app || (p.branch in app.store.branches && after == WithBase(app, p.branch))
  {
    receipt := None;
    if Precheck(app, p).Ok? {
      var x := Submission(p, Precheck(app, p).value);
      if TakesEffect(defs, app.store, x) {
        CommitOf(defs, app, p);
        receipt := Some(Answer(defs, app.store, x).value);
      } else {
        StaleSubmit(defs, app, p);
      }
    }
  }

  /** A submission that does not take effect records at most a replay base. */
  lemma StaleSubmit(defs: Definitions, app: App, p: Proposal)
    requires KeysOk(app.events, app.store.receipts) && Precheck(app, p).Ok?
    requires !TakesEffect(defs, app.store, Submission(p, Precheck(app, p).value))
    ensures Submitted(defs, app, p).0 == WithBase(app, p.branch)
  {
    var x := Submission(p, Precheck(app, p).value);
    NoEffect(defs, app.store, x);
    NormalizedKeepsKey(defs, x);
    var based := WithBase(app, p.branch);
    assert based.(store := app.store) == based;
  }
}
