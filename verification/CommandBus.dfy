/** The command authority: checks, handler, deltas and receipt published as one step. */
module CommandBus {
  import opened Wrappers
  import opened KernelState

  datatype ConsequencePackage = ConsequencePackage(
    source: nat, expectedCanonical: Hash, deltas: seq<Delta>, reviewNote: string)

  datatype Parameters = Plain(fields: Fields) | Package(package: ConsequencePackage)

  // Only the parts of a proposal that decide what happens; the tracing identifiers are left out.
  datatype Proposal = Proposal(
    commandType: string, world: nat, branch: nat, run: nat, actor: nat, embodied: Option<nat>,
    parameters: Parameters, idempotencyKey: string)

  datatype Actor = Actor(id: nat, capabilities: set<string>, controlled: set<nat>)

  datatype Mutation = Mutation(entity: nat, entityType: string, name: string,
                               publicState: Fields, secretState: Fields, controller: Option<nat>)

  datatype CommandResult = CommandResult(
    accepted: bool, result: Fields, deltas: seq<Delta>, mutations: seq<Mutation>)

  // Identifiers derived by name hashing are injective in the run, actor and idempotency key.
  datatype ReceiptKey = ReceiptKey(run: nat, actor: nat, idempotencyKey: string)

  datatype Event = Event(id: ReceiptKey, world: nat, branch: nat, eventType: string, payload: Fields)

  datatype Grant = Grant(event: ReceiptKey, observer: nat, payload: Fields)

  datatype Receipt = Receipt(result: CommandResult, event: Event, stateHash: Hash, perceptions: seq<Grant>)

  datatype Error =
    | ActorMismatch | UnknownCommand | MissingCapability | NoEmbodiedEntity | NotControlled | BadParameters
    | UnknownBranch | WrongWorld | KindNotAllowed | HandlerFailed(reason: string) | BadResult
    | DeltaFailed | EmissionFailed
    | RunMismatch | NoAuthority | BadSpawn | EntityExists | MutationDiffers

  // A handler reads the proposal and the branch and answers; it does not change the branch itself.
  datatype Definition = Definition(
    commandType: string,
    required: set<string>,
    kinds: set<Kind>,
    handler: (Proposal, Branch) -> Result<CommandResult, Error>,
    normalize: Parameters -> Option<Parameters>,
    validResult: Fields -> bool,
    needsEntity: bool,
    emission: (Proposal, CommandResult, Branch, Branch) -> Option<seq<Grant>>)

  type Definitions = map<string, Definition>

  datatype Store = Store(branches: map<nat, Branch>, receipts: map<ReceiptKey, Receipt>)

  function KeyFor(p: Proposal): ReceiptKey {
    ReceiptKey(p.run, p.actor, p.idempotencyKey)
  }

  // The checks made before the store is consulted, and the proposal with normalized parameters.
  function Authorize(defs: Definitions, p: Proposal, actor: Actor): Result<Proposal, Error> {
    if p.actor != actor.id then Err(ActorMismatch)
    else if p.commandType !in defs then Err(UnknownCommand)
    else
      var d := defs[p.commandType];
      if !(d.required <= actor.capabilities) then Err(MissingCapability)
      else if d.needsEntity && p.embodied.None? then Err(NoEmbodiedEntity)
      else if d.needsEntity && p.embodied.value !in actor.controlled then Err(NotControlled)
      else
        match d.normalize(p.parameters)
        case None => Err(BadParameters)
        case Some(parameters) => Ok(p.(parameters := parameters))
  }

  function BranchCapability(kind: Kind): string {
    if kind == Canonical then "action.commit" else "action.propose"
  }

  // The operation run against the working copy: the changed copy and the receipt.
  function Perform(d: Definition, p: Proposal, actor: Actor, working: Branch): Result<(Branch, Receipt), Error> {
    if working.world != p.world then Err(WrongWorld)
    else if working.kind !in d.kinds then Err(KindNotAllowed)
    else if BranchCapability(working.kind) !in actor.capabilities then Err(MissingCapability)
    else
      match d.handler(p, working)
      case Err(e) => Err(e)
      case Ok(result) =>
        if !d.validResult(result.result) then Err(BadResult)
        else
          match ApplyAll(working.projections, result.deltas)
          case None => Err(DeltaFailed)
          case Some(projections) =>
            var after := working.(projections := projections);
            match d.emission(p, result, working, after)
            case None => Err(EmissionFailed)
            case Some(grants) =>
              Ok((after, Receipt(
                 result, Event(KeyFor(p), p.world, p.branch, p.commandType, result.result),
                 Hash(projections), grants)))
  }

  // One submission to the bus. A known key is answered from the stored receipt, whatever its branch.
  function Executed(defs: Definitions, s: Store, p: Proposal, actor: Actor): (Store, Result<Receipt, Error>) {
    match Authorize(defs, p, actor)
    case Err(e) => (s, Err(e))
    case Ok(q) =>
      var key := KeyFor(q);
      if key in s.receipts then (s, Ok(s.receipts[key]))
      else if q.branch !in s.branches then (s, Err(UnknownBranch))
      else
        var source := s.branches[q.branch];
        match Perform(defs[p.commandType], q, actor, source)
        case Err(e) => (s, Err(e))
        case Ok((after, receipt)) =>
          (Store(
             s.branches[q.branch := source.(projections := after.projections, version := source.version + 1)],
             s.receipts[key := receipt]),
           Ok(receipt))
  }

  /* ---- The objects ---- */

  class InMemoryStateStore {
    var branches: map<nat, BranchState>
    var receipts: map<ReceiptKey, Receipt>

    ghost predicate Valid()
      reads this, branches.Values
    {
      forall id :: id in branches ==> branches[id].id == id
    }

    ghost function View(): Store
      reads this, branches.Values
    {
      Store(map id | id in branches :: branches[id].View(), receipts)
    }

    constructor ()
      ensures Valid() && View() == Store(map[], map[])
    {
      branches, receipts := map[], map[];
    }

    method Add(state: BranchState) returns (ok: bool)
      requires Valid()
      modifies this
      ensures Valid() && ok == (state.id !in old(branches))
      ensures branches == if ok then old(branches)[state.id := state] else old(branches)
      ensures receipts == old(receipts)
    {
      ok := state.id !in branches;
      if ok { branches := branches[state.id := state]; }
    }

    method CreateTrial(canonical: nat, trial: nat) returns (r: Result<BranchState, Error>)
      requires Valid()
      modifies this
      ensures Valid() && receipts == old(receipts)
      ensures r.Ok? <==>
              canonical in old(branches) && old(branches)[canonical].kind == Canonical && trial !in old(branches)
      ensures r.Err? ==> branches == old(branches)
      ensures r.Ok? ==>
                && fresh(r.value) && branches == old(branches)[trial := r.value]
                && r.value.View() == ForTrial(old(branches[canonical].View()), trial)
    {
      if canonical !in branches { return Err(UnknownBranch); }
      if branches[canonical].kind != Canonical { return Err(KindNotAllowed); }
      var copy := branches[canonical].CloneForTrial(trial);
      var added := Add(copy);
      if !added { return Err(UnknownBranch); }
      return Ok(copy);
    }

    // Publishes the evaluated copy and its receipt together.
    method Publish(branch: nat, key: ReceiptKey, working: BranchState, receipt: Receipt)
      requires Valid() && branch in branches && working !in branches.Values
      modifies this`receipts, branches[branch]
      ensures Valid() && branches == old(branches)
      ensures View() == Store(
                old(View()).branches[branch := old(branches[branch].View()).(
                  projections := working.projections, base := working.base,
                  version := old(branches[branch].version) + 1)],
                old(receipts)[key := receipt])
    {
      var source := branches[branch];
      source.projections := working.projections;
      source.base := working.base;
      source.version := source.version + 1;
      receipts := receipts[key := receipt];
    }
  }

  class Bus {
    const states: InMemoryStateStore
    var definitions: Definitions

    constructor (states: InMemoryStateStore)
      ensures this.states == states && definitions == map[]
    {
      this.states := states;
      definitions := map[];
    }

    method Register(d: Definition) returns (ok: bool)
      modifies `definitions
      ensures ok == (d.commandType !in old(definitions))
      ensures definitions == if ok then old(definitions)[d.commandType := d] else old(definitions)
    {
      ok := d.commandType !in definitions;
      if ok { definitions := definitions[d.commandType := d]; }
    }

    method Run(d: Definition, p: Proposal, actor: Actor, state: BranchState) returns (r: Result<Receipt, Error>)
      modifies state
      ensures var spec := Perform(d, p, actor, old(state.View()));
              && (r.Err? <==> spec.Err?) && (r.Err? ==> r.error == spec.error)
              && (r.Ok? ==> spec.value == (state.View(), r.value))
    {
      if state.world != p.world { return Err(WrongWorld); }
      if state.kind !in d.kinds { return Err(KindNotAllowed); }
      if BranchCapability(state.kind) !in actor.capabilities { return Err(MissingCapability); }
      var before := state.View();
      var outcome := d.handler(p, state.View());
      if outcome.Err? { return Err(outcome.error); }
      var result := outcome.value;
      if !d.validResult(result.result) { return Err(BadResult); }
      var applied := state.ApplyEach(result.deltas);
      if !applied { return Err(DeltaFailed); }
      var grants := d.emission(p, result, before, state.View());
      if grants.None? { return Err(EmissionFailed); }
      return Ok(Receipt(
        result, Event(KeyFor(p), p.world, p.branch, p.commandType, result.result),
        Hash(state.projections), grants.value));
    }

    method Execute(p: Proposal, actor: Actor) returns (r: Result<Receipt, Error>)
      requires states.Valid()
      modifies states`receipts, states.branches.Values
      ensures states.Valid() && states.branches == old(states.branches)
      ensures (states.View(), r) == Executed(definitions, old(states.View()), p, actor)
    {
      var checked := Authorize(definitions, p, actor);
      if checked.Err? { return Err(checked.error); }
      var q := checked.value;
      var key := KeyFor(q);
      if key in states.receipts { return Ok(states.receipts[key]); }
      if q.branch !in states.branches { return Err(UnknownBranch); }
      var working := states.branches[q.branch].WorkingCopy();
      r := Run(definitions[p.commandType], q, actor, working);
      if r.Ok? {
        states.Publish(q.branch, key, working, r.value);
      }
    }
  }
}
