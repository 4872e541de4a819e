/** The application object: its methods change its dictionaries exactly as the application functions say. */
module SimulationApplications {
  import opened Wrappers
  import opened KernelState
  import opened CommandBus
  import opened Replay
  import opened Application

  lemma CopyOneMore(entities: map<(nat, nat), EntityRecord>, canonical: nat, b: Branch, ids: set<nat>, id: nat)
    requires ids + {id} <= Missing(entities, canonical, b) && id !in ids
    ensures var before := entities + Copied(entities, canonical, b, ids);
            && (canonical, id) in before
            && var e := before[(canonical, id)];
            entities + Copied(entities, canonical, b, ids + {id})
            == before[(b.id, id) := e.(branch := b.id, publicState := PublicOf(b, e))]
  {
    var copies, more := Copied(entities, canonical, b, ids), Copied(entities, canonical, b, ids + {id});
    assert canonical != b.id;
    assert (canonical, id) !in copies;
    assert more == copies[(b.id, id) := more[(b.id, id)]];
  }

  class SimulationApplication {
    const states: InMemoryStateStore
    const bus: Bus
    var worlds: map<nat, nat>
    var runs: map<nat, RunRecord>
    var authorities: map<(nat, nat), Actor>
    var entities: map<(nat, nat), EntityRecord>
    var events: map<ReceiptKey, Event>
    var history: map<nat, seq<ReplayRecord>>
    var bases: map<nat, BranchState>
    var offsets: map<nat, nat>
    var snapshots: map<nat, Manifest>

    // The replay bases are copies: no live branch is one of them.
    ghost predicate Valid()
      reads this, states, states.branches.Values
    {
      bus.states == states && states.Valid() && bases.Values !! states.branches.Values
    }

    ghost function Bases(): map<nat, Branch>
      reads this, bases.Values
    {
      map id | id in bases :: bases[id].View()
    }

    ghost function View(): App
      reads this, states, states.branches.Values, bases.Values
    {
      App(states.View(), worlds, runs, authorities, entities, events, history, Bases(), offsets, snapshots)
    }

    constructor ()
      ensures Valid() && View() == EMPTY && bus.definitions == map[]
      ensures fresh(states) && fresh(bus)
    {
      var store := new InMemoryStateStore();
      states := store;
      bus := new Bus(store);
      worlds, runs, authorities, entities, events := map[], map[], map[], map[], map[];
      history, bases, offsets, snapshots := map[], map[], map[], map[];
    }

    method Check(p: Proposal) returns (r: Result<Actor, Error>)
      requires Valid()
      ensures r == Precheck(View(), p)
    {
      if p.branch !in states.branches { return Err(UnknownBranch); }
      if states.branches[p.branch].world != p.world { return Err(WrongWorld); }
      if p.run !in runs || runs[p.run] != RunRecord(p.world, p.branch) { return Err(RunMismatch); }
      if (p.world, p.actor) !in authorities { return Err(NoAuthority); }
      if p.commandType == SPAWN {
        var target := SpawnTarget(p.parameters);
        if target.None? { return Err(BadSpawn); }
        var (entity, controller) := target.value;
        if (p.branch, entity) in entities { return Err(EntityExists); }
        if controller.Some? && (p.world, controller.value) !in authorities { return Err(NoAuthority); }
      }
      return Ok(authorities[(p.world, p.actor)]);
    }

    // Before a branch's first command, keeps a copy of it and the length of its log.
    method EnsureBase(branch: nat)
      requires Valid() && branch in states.branches
      modifies `bases, `offsets
      ensures Valid() && View() == WithBase(old(View()), branch)
    {
      if branch !in bases {
        var copy := states.branches[branch].WorkingCopy();
        offsets := offsets[branch := if branch in history then |history[branch]| else 0];
        bases := bases[branch := copy];
        assert Bases() == old(Bases())[branch := copy.View()];
      }
    }

    // Enters the entity records of a committed command one by one.
    method Enter(p: Proposal, mutations: seq<Mutation>) returns (failure: Option<Error>)
      modifies `entities, `authorities
      ensures (Roster(entities, authorities), failure) == Recorded(Roster(old(entities), old(authorities)), p,
                                                                   mutations)
    {
      ghost var before := Roster(entities, authorities);
      var i := 0;
      while i < |mutations|
        invariant 0 <= i <= |mutations|
        invariant Recorded(before, p, mutations) == Recorded(Roster(entities, authorities), p, mutations[i..])
      {
        var m := mutations[i];
        assert mutations[i..][0] == m && mutations[i..][1..] == mutations[i + 1..];
        var key := (p.branch, m.entity);
        if key in entities {
          if entities[key] != RecordFor(p, m) { return Some(MutationDiffers); }
        } else {
          entities := entities[key := RecordFor(p, m)];
          if m.controller.Some? {
            if (p.world, m.controller.value) !in authorities { return Some(NoAuthority); }
            authorities := Control(authorities, p.world, m.controller.value, m.entity);
          }
        }
        i := i + 1;
      }
      return None;
    }

    method Append(p: Proposal, receipt: Receipt)
      requires Valid()
      modifies `events, `history
      ensures Valid()
      ensures View() == old(View()).(
                events := old(events)[receipt.event.id := receipt.event],
                history := old(history)[
                  p.branch := History(old(View()), p.branch) + [ReplayRecord(p, receipt.result, receipt.stateHash)]])
    {
      events := events[receipt.event.id := receipt.event];
      var log := if p.branch in history then history[p.branch] else [];
      history := history[p.branch := log + [ReplayRecord(p, receipt.result, receipt.stateHash)]];
    }

    method Log(p: Proposal, receipt: Receipt) returns (failure: Option<Error>)
      requires Valid()
      modifies `entities, `authorities, `events, `history
      ensures Valid() && (View(), failure) == Logged(old(View()), p, receipt)
    {
      if receipt.event.id in events { return None; }
      var mutations := if receipt.result.accepted then receipt.result.mutations else [];
      failure := Enter(p, mutations);
      assert View() == Entered(old(View()), Roster(entities, authorities));
      if failure.None? { Append(p, receipt); }
    }

    // The bus changes live branches only, so the copies kept as replay bases stay as they are.
    method Dispatch(p: Proposal, actor: Actor) returns (r: Result<Receipt, Error>)
      requires Valid()
      modifies states`receipts, states.branches.Values
      ensures Valid()
      ensures var (store, answer) := Executed(bus.definitions, old(View()).store, p, actor);
              View() == old(View()).(store := store) && r == answer
    {
      r := bus.Execute(p, actor);
      assert Bases() == old(Bases());
    }

    method Submit(p: Proposal) returns (r: Result<Receipt, Error>)
      requires Valid()
      modifies this, states`receipts, states.branches.Values
      ensures Valid() && (View(), r) == Submitted(bus.definitions, old(View()), p)
    {
      var checked := Check(p);
      if checked.Err? { return Err(checked.error); }
      EnsureBase(p.branch);
      r := Dispatch(p, checked.value);
      if r.Err? { return; }
      var failure := Log(p, r.value);
      if failure.Some? { return Err(failure.value); }
    }

    // Writes a branch in place, past the command log.
    method Overwrite(branch: nat, projections: Projections)
      requires Valid() && branch in states.branches
      modifies states.branches[branch]
      ensures Valid()
      ensures View() == old(View()).(store := old(View()).store.(branches := old(View()).store.branches[
                branch := old(View()).store.branches[branch].(projections := projections)]))
    {
      var live := states.branches[branch];
      live.projections := projections;
      assert Bases() == old(Bases());
      assert states.View().branches == old(states.View()).branches[branch := live.View()];
    }

    method Keep(e: EntityRecord)
      requires Valid()
      modifies `entities
      ensures Valid() && View() == old(View()).(entities := old(entities)[(e.branch, e.entity) := e])
    {
      entities := entities[(e.branch, e.entity) := e];
    }

    method AssignControl(world: nat, actor: nat, entity: nat) returns (ok: bool)
      requires Valid()
      modifies `authorities
      ensures Valid() && (ok <==> (world, actor) in old(authorities))
      ensures View() == if ok then old(View()).(authorities := Control(old(authorities), world, actor, entity))
                        else old(View())
    {
      ok := (world, actor) in authorities;
      if ok { authorities := Control(authorities, world, actor, entity); }
    }

    // Records an entity and puts it under its controller, if that actor is known.
    method Admit(e: EntityRecord) returns (ok: bool)
      requires Valid()
      modifies `entities, `authorities
      ensures Valid() && (ok <==> e.controller.None? || (e.world, e.controller.value) in old(authorities))
      ensures View() == old(View()).(
                entities := old(entities)[(e.branch, e.entity) := e],
                authorities := if ok && e.controller.Some?
                               then Control(old(authorities), e.world, e.controller.value, e.entity)
                               else old(authorities))
    {
      Keep(e);
      ok := true;
      if e.controller.Some? { ok := AssignControl(e.world, e.controller.value, e.entity); }
    }

    // Admits an entity and then projects it directly into its branch.
    method CreateEntity(e: EntityRecord, projected: Fields, position: Fields, profile: Fields) returns (ok: bool)
      requires Valid()
      modifies `entities, `authorities, states.branches.Values
      ensures Valid() && View() == EntityCreated(old(View()), e, projected, position, profile)
    {
      if e.branch !in states.branches || states.branches[e.branch].world != e.world { return false; }
      ok := Admit(e);
      if !ok { return; }
      Overwrite(e.branch, Written(states.branches[e.branch].projections, e.entity, projected, position, profile));
    }

    method CreateBranchSnapshot(snapshot: nat, branch: nat) returns (r: Option<Manifest>)
      requires Valid()
      modifies `snapshots
      ensures Valid() && View() == Snapshotted(old(View()), snapshot, branch)
      ensures r.Some? <==> branch in states.branches
      ensures r.Some? ==> View().snapshots[snapshot] == r.value
    {
      if branch !in states.branches { return None; }
      var b := states.branches[branch];
      var through := if branch in history then |history[branch]| else 0;
      var m := Manifest(b.world, branch, through, Hash(b.projections));
      snapshots := snapshots[snapshot := m];
      return Some(m);
    }

    // Copies the canonical entities the trial does not know yet, one at a time.
    method Inherit(canonical: nat, b: Branch)
      modifies `entities
      ensures entities == Inherited(old(entities), canonical, b)
    {
      ghost var before := entities;
      var rest := Missing(entities, canonical, b);
      ghost var done: set<nat> := {};
      while rest != {}
        invariant done !! rest && done + rest == Missing(before, canonical, b)
        invariant entities == before + Copied(before, canonical, b, done)
        decreases rest
      {
        var id :| id in rest;
        CopyOneMore(before, canonical, b, done, id);
        var e := entities[(canonical, id)];
        entities := entities[(b.id, id) := e.(branch := b.id, publicState := PublicOf(b, e))];
        rest := rest - {id};
        done := done + {id};
      }
      assert done == Missing(before, canonical, b);
    }

    method OpenBranch(m: Manifest, trial: nat)
      requires Valid()
      modifies states
      ensures Valid()
      ensures var branches := old(View()).store.branches;
              View() == old(View()).(store := old(View()).store.(
                branches := if trial in branches then branches else branches[trial := TrialBranch(m, trial)]))
    {
      if trial !in states.branches {
        var branch := new BranchState(TrialBranch(m, trial));
        var _ := states.Add(branch);
        assert states.View().branches == old(states.View()).branches[trial := branch.View()];
      }
    }

    method OpenRun(run: nat, world: nat, trial: nat)
      requires Valid()
      modifies `runs
      ensures Valid() && View() == old(View()).(
                runs := if run in old(runs) then old(runs) else old(runs)[run := RunRecord(world, trial)])
    {
      if run !in runs { runs := runs[run := RunRecord(world, trial)]; }
    }

    method InheritAll(canonical: nat, trial: nat)
      requires Valid() && trial in states.branches
      modifies `entities
      ensures Valid() && View() == old(View()).(
                entities := Inherited(old(entities), canonical, old(View()).store.branches[trial]))
    {
      Inherit(canonical, states.branches[trial].View());
    }

    method CreateTrial(world: nat, snapshot: nat, trial: nat, run: nat) returns (r: Option<BranchState>)
      requires Valid()
      modifies `runs, `entities, states
      ensures Valid() && View() == TrialOpened(old(View()), world, snapshot, trial, run)
      ensures r.Some? ==> trial in states.branches && states.branches[trial] == r.value
    {
      if world !in worlds || snapshot !in snapshots || snapshots[snapshot].world != world { return None; }
      OpenBranch(snapshots[snapshot], trial);
      OpenRun(run, world, trial);
      assert trial in View().store.branches;
      InheritAll(worlds[world], trial);
      return Some(states.branches[trial]);
    }

    method Replay(branch: nat) returns (r: Result<BranchState, ReplayError>)
      requires Valid() && branch in states.branches
      ensures r.Ok? ==> fresh(r.value) && ReplayOf(View(), branch) == Ok(r.value.View())
      ensures r.Err? ==> ReplayOf(View(), branch) == Err(r.error)
    {
      if branch !in bases {
        var copy := states.branches[branch].WorkingCopy();
        return Ok(copy);
      }
      var offset := if branch in offsets then offsets[branch] else 0;
      var log := if branch in history then history[branch] else [];
      r := ReplayEngine.Replay(bases[branch], if offset <= |log| then log[offset..] else []);
    }
  }
}
