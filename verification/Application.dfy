/** The application service around the bus: its ledger, replay bases, snapshots, trials and direct entity writes. */
module Application {
  import opened Wrappers
  import opened KernelState
  import opened CommandBus
  import opened Replay

  const SPAWN := "tabletop.entity.spawn"
  const ENTITIES := "tabletop.entities"
  const POSITIONS := "tabletop.spatial.positions"
  const PROFILES := "tabletop.sensory_profiles"

  datatype RunRecord = RunRecord(world: nat, branch: nat)

  datatype EntityRecord = EntityRecord(
    entity: nat, world: nat, branch: nat, entityType: string, name: string, controller: Option<nat>,
    publicState: Fields, secretState: Fields)

  // A snapshot artifact; its hash determines the stored projections.
  datatype Manifest = Manifest(world: nat, branch: nat, through: nat, state: Hash)

  datatype App = App(
    store: Store,
    worlds: map<nat, nat>,
    runs: map<nat, RunRecord>,
    authorities: map<(nat, nat), Actor>,
    entities: map<(nat, nat), EntityRecord>,
    events: map<ReceiptKey, Event>,
    history: map<nat, seq<ReplayRecord>>,
    bases: map<nat, Branch>,
    offsets: map<nat, nat>,
    snapshots: map<nat, Manifest>)

  function History(app: App, branch: nat): seq<ReplayRecord> {
    if branch in app.history then app.history[branch] else []
  }

  /* ---- Submitting a command ---- */

  function IdentifierOf(v: Value): Option<nat> {
    match v
    case Number(n) => if n >= 0 then Some(n) else None
    case _ => None
  }

  // The entity a spawn names and who is to control it, when both can be read.
  function SpawnTarget(parameters: Parameters): Option<(nat, Option<nat>)> {
    match parameters
    case Package(_) => None
    case Plain(fields) =>
      if "entity_id" !in fields then None
      else
        match IdentifierOf(fields["entity_id"])
        case None => None
        case Some(entity) =>
          if "controller_actor_id" !in fields || fields["controller_actor_id"] == Null then Some((entity, None))
          else
            match IdentifierOf(fields["controller_actor_id"])
            case None => None
            case Some(controller) => Some((entity, Some(controller)))
  }

  // The checks made before the replay base is taken and the bus is called.
  function Precheck(app: App, p: Proposal): Result<Actor, Error> {
    if p.branch !in app.store.branches then Err(UnknownBranch)
    else if app.store.branches[p.branch].world != p.world then Err(WrongWorld)
    else if p.run !in app.runs || app.runs[p.run] != RunRecord(p.world, p.branch) then Err(RunMismatch)
    else if (p.world, p.actor) !in app.authorities then Err(NoAuthority)
    else
      var actor := app.authorities[(p.world, p.actor)];
      if p.commandType != SPAWN then Ok(actor)
      else
        match SpawnTarget(p.parameters)
        case None => Err(BadSpawn)
        case Some((entity, controller)) =>
          if (p.branch, entity) in app.entities then Err(EntityExists)
          else if controller.Some? && (p.world, controller.value) !in app.authorities then Err(NoAuthority)
          else Ok(actor)
  }

  function WithBase(app: App, branch: nat): App
    requires branch in app.store.branches
  {
    if branch in app.bases then app
    else app.(bases := app.bases[branch := app.store.branches[branch]],
              offsets := app.offsets[branch := |History(app, branch)|])
  }

  function RecordFor(p: Proposal, m: Mutation): EntityRecord {
    EntityRecord(m.entity, p.world, p.branch, m.entityType, m.name, m.controller, m.publicState, m.secretState)
  }

  function Control(authorities: map<(nat, nat), Actor>, world: nat, actor: nat, entity: nat): map<(nat, nat), Actor>
    requires (world, actor) in authorities
  {
    var a := authorities[(world, actor)];
    authorities[(world, actor) := a.(controlled := a.controlled + {entity})]
  }

  // Entity records and actor authorities, the two books a command's entity mutations are entered in.
  datatype Roster = Roster(entities: map<(nat, nat), EntityRecord>, authorities: map<(nat, nat), Actor>)

  // The entity records a committed command creates; an error stops half-way.
  function Recorded(roster: Roster, p: Proposal, mutations: seq<Mutation>): (Roster, Option<Error>)
    decreases |mutations|
  {
    if mutations == [] then (roster, None)
    else
      var m := mutations[0];
      var key := (p.branch, m.entity);
      if key in roster.entities then
        if roster.entities[key] == RecordFor(p, m) then Recorded(roster, p, mutations[1..])
        else (roster, Some(MutationDiffers))
      else
        var entities := roster.entities[key := RecordFor(p, m)];
        match m.controller
        case None => Recorded(roster.(entities := entities), p, mutations[1..])
        case Some(c) =>
          if (p.world, c) !in roster.authorities then (roster.(entities := entities), Some(NoAuthority))
          else
            Recorded(Roster(entities, Control(roster.authorities, p.world, c, m.entity)), p, mutations[1..])
  }

  // Each mutation names a free entity with a known controller, if any, or repeats the record already there.
  predicate Enterable(roster: Roster, p: Proposal, mutations: seq<Mutation>) {
    forall i :: 0 <= i < |mutations| ==>
      && (if (p.branch, mutations[i].entity) in roster.entities
          then roster.entities[(p.branch, mutations[i].entity)] == RecordFor(p, mutations[i])
          else mutations[i].controller.Some? ==> (p.world, mutations[i].controller.value) in roster.authorities)
      && forall j :: 0 <= j < i && mutations[j].entity == mutations[i].entity ==>
           RecordFor(p, mutations[j]) == RecordFor(p, mutations[i])
  }

  // The entity mutations of a command that was not turned down.
  function Entering(receipt: Receipt): seq<Mutation> {
    if receipt.result.accepted then receipt.result.mutations else []
  }

  function Entered(app: App, roster: Roster): App {
    app.(entities := roster.entities, authorities := roster.authorities)
  }

  // Entity records first, then the event and the replay record of a receipt not seen before.
  function Logged(app: App, p: Proposal, receipt: Receipt): (App, Option<Error>) {
    if receipt.event.id in app.events then (app, None)
    else
      var (roster, failure) := Recorded(Roster(app.entities, app.authorities), p, Entering(receipt));
      if failure.Some? then (Entered(app, roster), failure)
      else
        (Entered(app, roster).(
           events := app.events[receipt.event.id := receipt.event],
           history := app.history[
             p.branch := History(app, p.branch) + [ReplayRecord(p, receipt.result, receipt.stateHash)]]),
         None)
  }

  function Submitted(defs: Definitions, app: App, p: Proposal): (App, Result<Receipt, Error>) {
    match Precheck(app, p)
    case Err(e) => (app, Err(e))
    case Ok(actor) =>
      var based := WithBase(app, p.branch);
      var (store, answer) := Executed(defs, app.store, p, actor);
      match answer
      case Err(e) => (based.(store := store), Err(e))
      case Ok(receipt) =>
        var (logged, failure) := Logged(based.(store := store), p, receipt);
        (logged, if failure.Some? then Err(failure.value) else Ok(receipt))
  }

  /* ---- The other operations that touch branches or the ledger ---- */

  datatype Step =
    | Submit(proposal: Proposal)
    | CreateWorld(world: nat, branch: nat, projections: Projections)
    | CreateRun(run: nat, world: nat, branch: nat)
    | GrantAuthority(world: nat, actor: Actor)
    | CreateSnapshot(snapshot: nat, branch: nat)
    | CreateTrial(world: nat, snapshot: nat, trial: nat, run: nat)
    | CreateEntity(record: EntityRecord, projected: Fields, position: Fields, profile: Fields)

  function Opened(app: App, world: nat, branch: nat, projections: Projections): App {
    if branch in app.store.branches then app
    else
      app.(store := app.store.(branches := app.store.branches[
                      branch := Branch(world, branch, Canonical, projections, None, 0)]),
           worlds := app.worlds[world := branch])
  }

  function RunCreated(app: App, run: nat, world: nat, branch: nat): App {
    if branch !in app.store.branches || app.store.branches[branch].world != world || run in app.runs then app
    else app.(runs := app.runs[run := RunRecord(world, branch)])
  }

  function Granted(app: App, world: nat, actor: Actor): App {
    if world !in app.worlds then app else app.(authorities := app.authorities[(world, actor.id) := actor])
  }

  function Snapshotted(app: App, snapshot: nat, branch: nat): App {
    if branch !in app.store.branches then app
    else
      var b := app.store.branches[branch];
      app.(snapshots := app.snapshots[snapshot := Manifest(b.world, branch, |History(app, branch)|,
                                                           Hash(b.projections))])
  }

  function TrialBranch(m: Manifest, trial: nat): Branch {
    Branch(m.world, trial, Trial, m.state.of, Some(m.state), 0)
  }

  function PublicOf(b: Branch, e: EntityRecord): Fields {
    var entities := BucketOf(b.projections, ENTITIES);
    (if Entity(e.entity) in entities then entities[Entity(e.entity)] else e.publicState) - {"name", "entity_type"}
  }

  // The canonical entities a trial does not know yet, copied under the trial's branch.
  function Missing(entities: map<(nat, nat), EntityRecord>, canonical: nat, b: Branch): set<nat> {
    set k | k in entities && k.0 == canonical && (b.id, k.1) !in entities :: k.1
  }

  function Copied(entities: map<(nat, nat), EntityRecord>, canonical: nat, b: Branch, ids: set<nat>)
    : map<(nat, nat), EntityRecord>
    requires ids <= Missing(entities, canonical, b)
  {
    map key | key in (set id | id in ids :: (b.id, id)) ::
      var e := entities[(canonical, key.1)];
      e.(branch := b.id, publicState := PublicOf(b, e))
  }

  function Inherited(entities: map<(nat, nat), EntityRecord>, canonical: nat, b: Branch)
    : map<(nat, nat), EntityRecord>
  {
    entities + Copied(entities, canonical, b, Missing(entities, canonical, b))
  }

  function TrialOpened(app: App, world: nat, snapshot: nat, trial: nat, run: nat): App {
    if world !in app.worlds || snapshot !in app.snapshots || app.snapshots[snapshot].world != world then app
    else
      var branches := if trial in app.store.branches then app.store.branches
                      else app.store.branches[trial := TrialBranch(app.snapshots[snapshot], trial)];
      app.(store := app.store.(branches := branches),
           runs := if run in app.runs then app.runs else app.runs[run := RunRecord(world, trial)],
           entities := Inherited(app.entities, app.worlds[world], branches[trial]))
  }

  function Put(p: Projections, name: string, entity: nat, record: Fields): Projections {
    p[name := BucketOf(p, name)[Entity(entity) := record]]
  }

  // What a directly created entity writes into its branch.
  function Written(p: Projections, entity: nat, projected: Fields, position: Fields, profile: Fields): Projections {
    Put(Put(Put(p, ENTITIES, entity, projected), POSITIONS, entity, position), PROFILES, entity, profile)
  }

  // Creates an entity by writing the branch directly, past the command log.
  function EntityCreated(app: App, e: EntityRecord, projected: Fields, position: Fields, profile: Fields): App {
    if e.branch !in app.store.branches || app.store.branches[e.branch].world != e.world then app
    else
      var created := app.(entities := app.entities[(e.branch, e.entity) := e]);
      if e.controller.Some? && (e.world, e.controller.value) !in app.authorities then created
      else
        var b := app.store.branches[e.branch];
        created.(
          authorities := if e.controller.None? then app.authorities
                         else Control(app.authorities, e.world, e.controller.value, e.entity),
          store := app.store.(branches := app.store.branches[
                     e.branch := b.(projections := Written(b.projections, e.entity, projected, position, profile))]))
  }

  function Next(defs: Definitions, app: App, op: Step): App {
    match op
    case Submit(p) => Submitted(defs, app, p).0
    case CreateWorld(world, branch, projections) => Opened(app, world, branch, projections)
    case CreateRun(run, world, branch) => RunCreated(app, run, world, branch)
    case GrantAuthority(world, actor) => Granted(app, world, actor)
    case CreateSnapshot(snapshot, branch) => Snapshotted(app, snapshot, branch)
    case CreateTrial(world, snapshot, trial, run) => TrialOpened(app, world, snapshot, trial, run)
    case CreateEntity(e, projected, position, profile) => EntityCreated(app, e, projected, position, profile)
  }

  const EMPTY := App(Store(map[], map[]), map[], map[], map[], map[], map[], map[], map[], map[], map[])

  function Ran(defs: Definitions, app: App, ops: seq<Step>): App
    decreases |ops|
  {
    if ops == [] then app else Ran(defs, Next(defs, app, ops[0]), ops[1..])
  }

  // The replay the service offers: the logged suffix from the branch's base, or the live state without a base.
  function ReplayOf(app: App, branch: nat): Result<Branch, ReplayError>
    requires branch in app.store.branches
  {
    if branch !in app.bases then Ok(app.store.branches[branch])
    else
      var offset := if branch in app.offsets then app.offsets[branch] else 0;
      var history := History(app, branch);
      Replayed(app.bases[branch], if offset <= |history| then history[offset..] else [])
  }
}
