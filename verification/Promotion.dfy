/** Promoting a trial's consequences onto the canonical branch it was opened from. */
module Promotion {
  import opened Wrappers
  import opened KernelState
  import opened CommandBus
  import opened BusRuns
  import opened Replay
  import opened Application
  import opened ApplicationRuns

  const PROMOTE := "kernel.branch.promote"

  function PackageOf(parameters: Parameters): Option<Parameters> {
    match parameters
    case Package(package) =>
      if |package.deltas| >= 1 && 1 <= |package.reviewNote| <= 2000 then Some(parameters) else None
    case Plain(_) => None
  }

  function PromoteConsequences(p: Proposal, b: Branch): Result<CommandResult, Error> {
    match PackageOf(p.parameters)
    case None => Err(BadParameters)
    case Some(Plain(_)) => Err(BadParameters)
    case Some(Package(package)) =>
      if b.kind != Canonical then Err(HandlerFailed("consequences can only be promoted to canonical branches"))
      else if Hash(b.projections) != package.expectedCanonical then
        Err(HandlerFailed("canonical state changed after the trial snapshot"))
      else
        Ok(CommandResult(
             true,
             map["source_branch_id" := Number(package.source),
                 "promoted_delta_count" := Number(|package.deltas|),
                 "review_note" := Text(package.reviewNote)],
             package.deltas, []))
  }

  predicate PromotionResult(fields: Fields) {
    && "source_branch_id" in fields && "review_note" in fields && "promoted_delta_count" in fields
    && fields["source_branch_id"].Number? && fields["review_note"].Text?
    && fields["promoted_delta_count"].Number? && fields["promoted_delta_count"].n >= 1
  }

  const PROMOTION := Definition(
    PROMOTE, {"canonical.promote", "action.commit"}, {Canonical},
    (p, b) => PromoteConsequences(p, b), parameters => PackageOf(parameters), fields => PromotionResult(fields),
    false, (p, r, before, after) => Some([]))

  // What the promotion endpoint checks before it submits.
  function Promotable(app: App, target: nat, package: ConsequencePackage): Option<Error> {
    if target !in app.store.branches || package.source !in app.store.branches then Some(UnknownBranch)
    else if PackageOf(Package(package)).None? then Some(BadParameters)
    else if app.store.branches[target].kind != Canonical then Some(KindNotAllowed)
    else
      var source := app.store.branches[package.source];
      if source.kind != Trial || source.world != app.store.branches[target].world then Some(KindNotAllowed)
      else if source.base != Some(package.expectedCanonical) then Some(BadParameters)
      else None
  }

  function PromotionProposal(world: nat, target: nat, run: nat, actor: nat, package: ConsequencePackage, key: string)
    : Proposal
  {
    Proposal(PROMOTE, world, target, run, actor, None, Package(package), key)
  }

  function Promoted(defs: Definitions, app: App, target: nat, run: nat, actor: nat,
                    package: ConsequencePackage, key: string): (App, Result<Receipt, Error>) {
    match Promotable(app, target, package)
    case Some(e) => (app, Err(e))
    case None =>
      Submitted(defs, app, PromotionProposal(app.store.branches[target].world, target, run, actor, package, key))
  }

  // The submitter may promote, and the key was not used before.
  ghost predicate Ready(defs: Definitions, app: App, target: nat, run: nat, actor: nat,
                        package: ConsequencePackage, key: string) {
    && PROMOTE in defs && defs[PROMOTE] == PROMOTION
    && Promotable(app, target, package).None?
    && var p := PromotionProposal(app.store.branches[target].world, target, run, actor, package, key);
    && KeyFor(p) !in app.store.receipts
    && Precheck(app, p).Ok?
    && Precheck(app, p).value.id == actor
    && {"canonical.promote", "action.commit"} <= Precheck(app, p).value.capabilities
  }

  // A package carrying everything a trial logged applies to the state the trial was opened on, and gives the trial.
  lemma PackageGivesTrial(app: App, trial: nat)
    requires trial in app.store.branches && app.store.branches[trial].kind == Trial
    requires TrialOk(app.store.branches[trial], History(app, trial))
    ensures var b := app.store.branches[trial];
            b.base.Some? && ApplyAll(b.base.value.of, AllDeltas(History(app, trial))) == Some(b.projections)
  {
    ReplayIsOneBatch(Origin(app.store.branches[trial]), History(app, trial));
  }

  // A promotion the bus has not seen takes effect if and only if the canonical state is the expected one.
  lemma BusPromotes(defs: Definitions, s: Store, p: Proposal, actor: Actor, package: ConsequencePackage)
    requires PROMOTE in defs && defs[PROMOTE] == PROMOTION
    requires p.commandType == PROMOTE && p.parameters == Package(package) && PackageOf(p.parameters).Some?
    requires p.actor == actor.id && {"canonical.promote", "action.commit"} <= actor.capabilities
    requires KeyFor(p) !in s.receipts && p.branch in s.branches
    requires s.branches[p.branch].world == p.world && s.branches[p.branch].kind == Canonical
    ensures var b := s.branches[p.branch];
            TakesEffect(defs, s, Submission(p, actor))
            <==> Hash(b.projections) == package.expectedCanonical && ApplyAll(b.projections, package.deltas).Some?
  {
    assert Authorize(defs, p, actor) == Ok(p);
  }

  lemma BusPromotesDeltas(defs: Definitions, s: Store, p: Proposal, actor: Actor, package: ConsequencePackage)
    requires PROMOTE in defs && defs[PROMOTE] == PROMOTION
    requires p.commandType == PROMOTE && p.parameters == Package(package)
    requires TakesEffect(defs, s, Submission(p, actor))
    ensures var result := Answer(defs, s, Submission(p, actor)).value.result;
            result.deltas == package.deltas && result.mutations == []
  {
  }

  lemma MovedHasNoEffect(defs: Definitions, s: Store, p: Proposal, actor: Actor, package: ConsequencePackage)
    requires PROMOTE in defs && defs[PROMOTE] == PROMOTION
    requires p.commandType == PROMOTE && p.parameters == Package(package)
    requires p.branch in s.branches && Hash(s.branches[p.branch].projections) != package.expectedCanonical
    ensures !TakesEffect(defs, s, Submission(p, actor))
  {
  }

  // What is left of a submission without entity mutations: the published store.
  lemma PlainCommit(defs: Definitions, app: App, p: Proposal)
    requires KeysOk(app.events, app.store.receipts) && Precheck(app, p).Ok?
    requires TakesEffect(defs, app.store, Submission(p, Precheck(app, p).value))
    requires Answer(defs, app.store, Submission(p, Precheck(app, p).value)).value.result.mutations == []
    ensures p.branch in app.store.branches
    ensures var receipt := Answer(defs, app.store, Submission(p, Precheck(app, p).value)).value;
            && ApplyAll(app.store.branches[p.branch].projections, receipt.result.deltas) == Some(receipt.stateHash.of)
            && Submitted(defs, app, p).1 == Ok(receipt)
            && Submitted(defs, app, p).0.store == Published(app.store, p, receipt)
  {
    SubmitShape(defs, app, p);
    var receipt := Answer(defs, app.store, Submission(p, Precheck(app, p).value)).value;
    LoggedShape(WithBase(app, p.branch).(store := Published(app.store, p, receipt)), p, receipt);
  }

  lemma NoEffectKeeps(defs: Definitions, app: App, p: Proposal)
    requires KeysOk(app.events, app.store.receipts)
    requires Precheck(app, p).Ok? ==> !TakesEffect(defs, app.store, Submission(p, Precheck(app, p).value))
    ensures var after := Submitted(defs, app, p).0;
            after.store == app.store && after.history == app.history && after.events == app.events
  {
    if Precheck(app, p).Ok? { StaleSubmit(defs, app, p); }
  }

  /**
   * Fast-forward: a package with all of a trial's logged deltas, in order, is accepted if and only if the canonical
   * branch still has the state the trial was opened on; the canonical projections are then the trial's.
   */
  lemma FastForward(defs: Definitions, app: App, target: nat, run: nat, actor: nat,
                    package: ConsequencePackage, key: string)
    requires KeysOk(app.events, app.store.receipts) && Ready(defs, app, target, run, actor, package, key)
    requires TrialOk(app.store.branches[package.source], History(app, package.source))
    requires package.deltas == AllDeltas(History(app, package.source))
    ensures var (after, answer) := Promoted(defs, app, target, run, actor, package, key);
            && (answer.Ok? <==> Hash(app.store.branches[target].projections) == package.expectedCanonical)
            && (answer.Ok? ==> target in after.store.branches && package.source in after.store.branches
                               && after.store.branches[target].projections ==
                                  app.store.branches[package.source].projections
                               && after.store.branches[package.source] == app.store.branches[package.source])
  {
    var p := PromotionProposal(app.store.branches[target].world, target, run, actor, package, key);
    var who := Precheck(app, p).value;
    PackageGivesTrial(app, package.source);
    BusPromotes(defs, app.store, p, who, package);
    if TakesEffect(defs, app.store, Submission(p, who)) {
      BusPromotesDeltas(defs, app.store, p, who, package);
      PlainCommit(defs, app, p);
    }
  }

  /** Any package, complete or not, changes nothing when the canonical branch has moved since the trial was opened. */
  lemma MovedCanonicalIsKept(defs: Definitions, app: App, target: nat, run: nat, actor: nat,
                             package: ConsequencePackage, key: string)
    requires PROMOTE in defs && defs[PROMOTE] == PROMOTION && KeysOk(app.events, app.store.receipts)
    requires target in app.store.branches && Hash(app.store.branches[target].projections) != package.expectedCanonical
    ensures var after := Promoted(defs, app, target, run, actor, package, key).0;
            after.store == app.store && after.history == app.history && after.events == app.events
  {
    var p := PromotionProposal(app.store.branches[target].world, target, run, actor, package, key);
    if Precheck(app, p).Ok? { MovedHasNoEffect(defs, app.store, p, Precheck(app, p).value, package); }
    NoEffectKeeps(defs, app, p);
  }

  /**
   * The service passes on a package exactly if it goes from a trial to a canonical branch of the same world, expects
   * the state the trial was opened on, and carries a delta and a note of at most 2000 characters; it refuses any other
   * one and changes nothing.
   */
  lemma PassedOnIff(defs: Definitions, app: App, target: nat, run: nat, actor: nat, package: ConsequencePackage,
                    key: string)
    ensures Promotable(app, target, package).None? <==>
            && target in app.store.branches && app.store.branches[target].kind == Canonical
            && package.source in app.store.branches && app.store.branches[package.source].kind == Trial
            && app.store.branches[package.source].world == app.store.branches[target].world
            && app.store.branches[package.source].base == Some(package.expectedCanonical)
            && package.deltas != [] && package.reviewNote != [] && |package.reviewNote| <= 2000
    ensures Promotable(app, target, package).Some? ==>
              var (after, answer) := Promoted(defs, app, target, run, actor, package, key);
              after == app && answer.Err?
  {
  }
}
