/** Choosing, after a restart, what a branch is replayed from. */
module Hydration {
  import opened Wrappers
  import opened KernelState
  import opened CommandBus
  import opened Replay
  import opened Application
  import opened ApplicationRuns
  import opened Rebuilding

  // The snapshot going further, or the one with the greater identifier among those going equally far.
  predicate NoLater(snapshots: map<nat, Manifest>, a: nat, b: nat)
    requires a in snapshots && b in snapshots
  {
    snapshots[a].through < snapshots[b].through || (snapshots[a].through == snapshots[b].through && a <= b)
  }

  predicate Candidate(app: App, branch: nat, s: nat) {
    s in app.snapshots && app.snapshots[s].branch == branch && app.snapshots[s].through <= |History(app, branch)|
  }

  method Latest(app: App, branch: nat, rows: seq<nat>) returns (r: Option<nat>)
    ensures r.None? ==> forall i :: 0 <= i < |rows| ==> !Candidate(app, branch, rows[i])
    ensures r.Some? ==> r.value in rows && Candidate(app, branch, r.value)
    ensures r.Some? ==> forall i :: 0 <= i < |rows| && Candidate(app, branch, rows[i]) ==>
                          NoLater(app.snapshots, rows[i], r.value)
    ensures r.Some? ==> forall i :: 0 <= i < |rows| && Candidate(app, branch, rows[i]) && rows[i] > r.value ==>
                          app.snapshots[rows[i]].through < app.snapshots[r.value].through
  {
    r := None;
    for k := 0 to |rows|
      invariant r.None? ==> forall i :: 0 <= i < k ==> !Candidate(app, branch, rows[i])
      invariant r.Some? ==> r.value in rows && Candidate(app, branch, r.value)
      invariant r.Some? ==> forall i :: 0 <= i < k && Candidate(app, branch, rows[i]) ==>
                              NoLater(app.snapshots, rows[i], r.value)
    {
      if Candidate(app, branch, rows[k]) && (r.None? || NoLater(app.snapshots, r.value, rows[k])) {
        r := Some(rows[k]);
      }
    }
  }

  // The snapshot recorded as a trial's origin has the state the trial was opened with, and belongs to another branch.
  ghost predicate OriginRow(app: App, branch: nat, origins: map<nat, nat>) {
    branch in app.store.branches && branch in origins && origins[branch] in app.snapshots ==>
      var live := app.store.branches[branch];
      var m := app.snapshots[origins[branch]];
      live.kind == Trial && m.branch != branch && live.base == Some(m.state)
  }

  // The candidate that goes furthest; there is at most one.
  ghost predicate Furthest(app: App, branch: nat, s: nat) {
    Candidate(app, branch, s) && forall t :: Candidate(app, branch, t) ==> NoLater(app.snapshots, t, s)
  }

  // What would be chosen rebuilds the branch: the furthest snapshot, or without one the trial's origin.
  ghost predicate BasisOk(app: App, branch: nat, origins: map<nat, nat>)
    requires branch in app.store.branches
  {
    && (forall s :: Furthest(app, branch, s) ==>
          SnapshotOk(app.snapshots[s], Of(app.history, branch), app.store.branches[branch]))
    && (branch in origins && origins[branch] in app.snapshots && (forall s :: !Candidate(app, branch, s)) ==>
          TrialOk(app.store.branches[branch], Of(app.history, branch)))
  }

  lemma FurthestIsUnique(app: App, branch: nat, s: nat, t: nat)
    requires Furthest(app, branch, s) && Furthest(app, branch, t)
    ensures s == t
  {
    assert NoLater(app.snapshots, s, t) && NoLater(app.snapshots, t, s);
  }

  lemma OnlyTheFurthest(app: App, branch: nat, origins: map<nat, nat>, s: nat)
    requires branch in app.store.branches && Furthest(app, branch, s)
    ensures var live := app.store.branches[branch];
            var m := app.snapshots[s];
            BasisOk(app, branch, origins) <==>
            Replayed(FromSnapshot(live, m), History(app, branch)[m.through..]) == Ok(live)
  {
    forall t | Furthest(app, branch, t) ensures t == s { FurthestIsUnique(app, branch, s, t); }
    assert Candidate(app, branch, s);
  }

  lemma OnlyTheOrigin(app: App, branch: nat, origins: map<nat, nat>)
    requires branch in app.store.branches && OriginRow(app, branch, origins)
    requires branch in origins && origins[branch] in app.snapshots && forall s :: !Candidate(app, branch, s)
    ensures var live := app.store.branches[branch];
            var m := app.snapshots[origins[branch]];
            BasisOk(app, branch, origins) <==>
            Replayed(live.(projections := m.state.of, version := 0), History(app, branch)[0..]) == Ok(live)
  {
    var h := History(app, branch);
    assert h[0..] == h;
  }

  /**
   * The chosen basis and offset replay to the live branch if and only if the furthest snapshot rebuilds it, or without
   * one its origin; no snapshot of the branch would leave a shorter log to replay; and a branch is left without a basis
   * only when its log is empty.
   */
  method SelectBasis(app: App, branch: nat, rows: seq<nat>, origins: map<nat, nat>) returns (r: Option<(Branch, nat)>)
    requires branch in app.store.branches && (forall s :: s in app.snapshots <==> s in rows)
    requires OriginRow(app, branch, origins)
    ensures r.None? ==> History(app, branch) == []
    ensures r.Some? ==> r.value.1 <= |History(app, branch)|
    ensures BasisOk(app, branch, origins) <==>
            (r.Some? ==> Replayed(r.value.0, History(app, branch)[r.value.1..]) == Ok(app.store.branches[branch]))
    ensures forall s :: Candidate(app, branch, s) ==> r.Some? && app.snapshots[s].through <= r.value.1
  {
    var live := app.store.branches[branch];
    var h := History(app, branch);
    var latest := Latest(app, branch, rows);
    forall s | Candidate(app, branch, s) ensures latest.Some? && NoLater(app.snapshots, s, latest.value) {
      var i :| 0 <= i < |rows| && rows[i] == s;
    }
    if latest.Some? {
      var m := app.snapshots[latest.value];
      OnlyTheFurthest(app, branch, origins, latest.value);
      return Some((live.(projections := m.state.of, version := m.through), m.through));
    }
    if branch in origins && origins[branch] in app.snapshots {
      OnlyTheOrigin(app, branch, origins);
      return Some((live.(projections := app.snapshots[origins[branch]].state.of, version := 0), 0));
    }
    if h != [] {
      assert h[|h|..] == [];
      return Some((live, |h|));
    }
    return None;
  }

  /**
   * After any run that spares snapshots and trials, whatever was written elsewhere, every choice rebuilds its branch.
   */
  lemma RestartRebuilds(defs: Definitions, ops: seq<Step>, branch: nat, origins: map<nat, nat>)
    requires AllEnter(defs, EMPTY, ops) && Spared(Snapshots, defs, EMPTY, ops) && Spared(Trials, defs, EMPTY, ops)
    requires branch in Ran(defs, EMPTY, ops).store.branches
    ensures BasisOk(Ran(defs, EMPTY, ops), branch, origins)
  {
    var app := Ran(defs, EMPTY, ops);
    ThroughoutIff(Snapshots, defs, EMPTY, ops);
    ThroughoutIff(Trials, defs, EMPTY, ops);
    assert TrialOk(app.store.branches[branch], Of(app.history, branch));
    forall s | Furthest(app, branch, s)
      ensures SnapshotOk(app.snapshots[s], Of(app.history, branch), app.store.branches[branch])
    {
      assert app.snapshots[s].branch == branch;
    }
  }

  lemma WholeLogSnapshot(live: Branch, h: seq<ReplayRecord>, m: Manifest)
    requires live.version == |h| == m.through
    ensures SnapshotOk(m, h, live) <==> m.state == Hash(live.projections)
  {
    assert h[m.through..] == [];
  }

  /**
   * A new snapshot repairs what direct writes broke if and only if it is the one chosen, or the chosen one, of the same
   * length but with a greater identifier, has the same state.
   */
  lemma SnapshotRepairsIff(app: App, snapshot: nat, branch: nat, origins: map<nat, nat>, chosen: nat)
    requires LedgerOk(app) && branch in app.store.branches
    requires Furthest(Snapshotted(app, snapshot, branch), branch, chosen)
    ensures var after := Snapshotted(app, snapshot, branch);
            && after.store == app.store && after.snapshots[chosen].through == |History(app, branch)|
            && (BasisOk(after, branch, origins) <==>
                after.snapshots[chosen].state == Hash(app.store.branches[branch].projections))
            && (chosen == snapshot ==> BasisOk(after, branch, origins))
  {
    var after := Snapshotted(app, snapshot, branch);
    assert Candidate(after, branch, snapshot) && NoLater(after.snapshots, snapshot, chosen);
    OnlyTheFurthest(after, branch, origins, chosen);
    WholeLogSnapshot(app.store.branches[branch], History(app, branch), after.snapshots[chosen]);
  }
}
