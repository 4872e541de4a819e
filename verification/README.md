# Verification model of the tabletop simulation

This project models the stateful core of the simulation server and proves properties of it with Dafny 4.11.
`dafny verify dfyconfig.toml` checks everything.

What is modelled, by component:

- **Planner** (`Planner`, `PlannerTheorems`, `PlannerExact`, `PlannerTies`, `PlannerDepthCut`): the bounded uniform-cost
  GOAP search. Costs are naturals in units of 1e-9. The loop is a method proved equal to a step-by-step search function; the theorems are
  about that function: soundness, optimality, exactly which plans the depth bound hides, bounds a caller can choose so
  that none is hidden, depth-bounded completeness and the choice among shortest plans under equal costs, and a concrete
  problem where a plan is lost.
- **Grid perception** (`GridLine`, `Sight`, `ZoneTransmission`): the grid walk, line of sight, and the portal search.
  The walk is proved to visit exactly the squares crossed by the real segment between cell centres; distance is an
  arbitrary function of coordinate differences; transmissions are reals.
- **Event-sourced kernel** (`KernelState`, `CommandBus`, `BusRuns`, `Replay`, `Application`, `ApplicationRuns`,
  `ApplicationEntities`, `ApplicationRetries`, `Rebuilding`, `Hydration`, `Promotion`, `SimulationApplications`):
  deltas, the atomic command bus, the application's ledger, entity records, retries, replay, snapshots, trials, choice of a replay basis after a restart, and
  promotion. Handlers are functions of the proposal and the branch. Hashes and derived identifiers are injective.
- **Personas** (`DependencyOrder`, `PersonaSchema`, `PersonaValidator`, `PersonaGenerator`, `PersonaTheorems`): cycle
  check, layered order, rules, generator and validator. Random draws are arbitrary choices, so every theorem holds for
  all draws.
- **Subjective projection** (`Beliefs`, `BeliefRuns`, `MindStores`, `Projector`, `ProjectorTheorems`,
  `ProjectorLeases`, `ProjectorMinds`, `ProjectorRaces`, `ProjectorRuns`): belief revision with confidences in millionths and explicit
  rounding, and the leased outbox as a state machine whose steps any number of workers interleave.
- **Lifecycles** (`Jobs`, `Lifecycle`, `Lockout`, `LockoutRaces`, `Onboarding`): job sections and their interleavings,
  the population lifecycle, login lockout one login after the other and interleaved, and the onboarding state machine
  beside the verifier that recounts its events.

`Wrappers`, `Ordering` and `TextSets` hold shared types, sorting by a text key, and sets of names.

Each component keeps the form of its source: objects with fields are classes whose methods are proved to make exactly
the change a specification function describes, loops are methods with invariants, and the results about whole runs are
lemmas over those functions.

Results where the code and the expected property differ:

- The planner's `"no_plan"` can also follow a depth cut (`PlannerDepthCut.DepthCutLosesPlan`). A plan is found exactly
  when some plan enters no state given up at the depth bound (`PlannerExact.PlanExact`); under equal costs exactly when
  one within the depth bound exists (`PlannerExact.EqualCostsDecide`).
- The portal search returns on first arrival, so it gives the fewest portals and not always the loudest way. Beside a
  direct portal of transmission a and a way round over b and c, it is the loudest exactly when b * c <= a
  (`ZoneTransmission.DetourIsLoudestIff`); with one factor throughout it always is.
- The bus answers a retry with the first receipt, and so does the application, except that an accepted spawn sent again
  is always refused, because its entity exists (`ApplicationRetries.AcceptedSpawnIsRefused`).
- Replay gives every live branch throughout a run exactly when no direct entity write changes a branch that has a replay
  base and no committed command has entity mutations that cannot be entered (`Rebuilding.GuaranteeIff`; runs from nothing
  that break it are `Rebuilding.LateWriteBreaksReplay` and `Rebuilding.StrayMutationBreaksReplay`). Snapshots and trials
  have their own exact conditions in the same theorem.
- A new snapshot repairs what direct writes broke, unless an older one of the same length and with another state has the
  greater identifier (`Hydration.SnapshotRepairsIff`).
- The generator's look-ahead gives up a completable value exactly when a rule that already fires asks something to which
  an empty distribution, or one on a numeric dimension, gives no weight (`PersonaTheorems.LookAheadExact`).
- A worker whose lease ran out still saves what it computes from its old copy. Working again on a projected event
  rewrites a mind exactly when that copy lacks the observation (`ProjectorRaces.ProjectedRowStep`), and can bring a
  contradicted belief back into force (`ProjectorRuns.StaleAgainRevives`).
- A mind can end up with two beliefs in force under one key (`ProjectorRuns.RaceFromFresh`). A save leaves at most one
  exactly when no belief that entered since the load collides with what is saved (`ProjectorRaces.SaveOrderlyIff`,
  over runs `ProjectorRaces.OrderlyRunIff`).
- A finished job record stored late lowers the attempt, exactly when a retry was granted in between
  (`Jobs.LoweredExactly`), and then the attempt limit no longer limits starts (`Jobs.LateStoresDefeatTheLimit`). A
  completed job can still become failed (`Jobs.CompletedThenFailed`), exactly when a thread stores a different record
  later (`Jobs.CompletedChangesIff`).
- Logins read the record before the slow verification. Interleaved, any number of wrong passwords can be judged at one
  moment (`LockoutRaces.NoBoundAtOnce`); each judged by an outdated copy loosens the bound by at most five
  (`LockoutRaces.InterleavedGuesses`).
- The recounted help requests equal the recorded ones exactly when help is asked for in upper case and before
  completion (`Onboarding.HelpRecountExact`).

## Model

| member | source | states |
|---|---|---|
| Planner.MinIndex | cognition/planning.py:70 | what is popped is least in the tuple order of the heap entries |
| Planner.Plan | cognition/planning.py:38-115 | the loop ends, reports the errors on its arguments, and computes exactly the verdict of the step-by-step search, whose properties follow |
| PlannerTheorems.PlanSound | cognition/planning.py:69-82 | an achieved plan is executable from the initial state, reaches the goal in the reported state, costs the sum of its actions after rounding, is no longer than the depth bound and explored no more than the node bound |
| PlannerTheorems.ExpandKeeps | cognition/planning.py:86-108 | relaxing the actions of a popped node keeps the search invariant, never raises a best cost, and leaves every tried action covered |
| PlannerTheorems.PlanOptimal | cognition/planning.py:60-115 | no executable plan of any length that avoids the states given up at the depth bound is cheaper than the answer, and with such a plan the answer is never "no_plan" |
| PlannerTheorems.NothingDropped | cognition/planning.py:83-84 | search paths do not repeat states, so a depth bound of at least the number of reachable states gives up nothing |
| PlannerTheorems.NeverBounded | cognition/planning.py:69-74 | each state is expanded at most once, so a node bound above the number of reachable states is never what ends the search |
| PlannerTheorems.PlanDecides | cognition/planning.py:38-115 | with both bounds large enough a plan is achieved if and only if one exists, and no plan of any length is cheaper |
| PlannerExact.PlanExact | cognition/planning.py:69-115 | unless the node bound ended the search, a plan is achieved if and only if some executable plan enters no state given up at the depth bound |
| PlannerExact.EqualCostsDecide | cognition/planning.py:69-115 | when all costs are equal, and unless the node bound ended the search, a plan is achieved if and only if one of at most the depth bound exists |
| PlannerExact.EqualCostsDecideReachable | cognition/planning.py:38-115 | for which a node bound above the number of reachable states is enough |
| PlannerTies.EqualCostsChooseFirst | cognition/planning.py:60-115 | when all actions cost the same, an achieved plan is a shortest executable plan to the goal, and among the shortest ones the first in text order: at the first place where it differs from another its action name is a proper prefix of the other's or has the smaller character at their first difference; whatever the bounds |
| PlannerTheorems.PlanIgnoresActionOrder | cognition/planning.py:60 | the order in which the caller lists the actions does not change the result |
| PlannerExact.PlanAnswers | cognition/planning.py:44-58 | which calls are refused; a goal already met needs no action; an answer without a plan leaves the state as it was and blames the node bound only when that many nodes were explored |
| PlannerExact.SatisfiesMeans | cognition/planning.py:117-122 | a requirement is met by an equal value, and one that asks for nothing also by an absent key |
| PlannerExact.ReportedCostIsNearest | cognition/planning.py:78 | the reported cost is the nearest with six decimals, of two equally near ones the even one |
| PlannerDepthCut.DepthCutLosesPlan | cognition/planning.py:83-84 | a concrete problem with a plan inside the depth bound for which the answer is "no_plan", because best costs ignore depth |
| GridLine.Supercover | domains/tabletop/spatial/perception.py:304-328 | the loop with cross-multiplied comparisons yields exactly the line described below |
| GridLine.LineExact | domains/tabletop/spatial/perception.py:304-328 | for distinct endpoints a cell is visited if and only if the segment joining the two cell centres crosses its open unit square |
| GridLine.LineShape | domains/tabletop/spatial/perception.py:304-328 | the line starts and ends at the given cells and moves by king steps |
| GridLine.LineReversed | domains/tabletop/spatial/perception.py:304-328 | from the other end the walk is the exact reverse |
| GridLine.WalkExact | domains/tabletop/spatial/perception.py:313-327 | in step counts, the walk visits exactly the crossed squares that lie ahead |
| Sight.VisibleEntities | domains/tabletop/spatial/perception.py:25-57 | the loop over the sorted targets gives the observer itself with one, and every other entity that is not invisible and has positive confidence, with the rounded confidence |
| Sight.SightSymmetric | domains/tabletop/spatial/perception.py:242-268 | the confidence is the same with origin and observer swapped |
| Sight.MutualSight | domains/tabletop/spatial/perception.py:41-57 | two entities neither of which is invisible see each other with equal confidence or not at all |
| Sight.SightBounds | domains/tabletop/spatial/perception.py:250-268 | the confidence is zero exactly out of range or behind full opacity, and otherwise between 0.05 and 1 |
| Sight.SightByFormula | domains/tabletop/spatial/perception.py:242-268 | within one zone the confidence is the share of the lit range that is left times what the occluders on the cells strictly between let through, but at least 0.05; nothing beyond the range or behind full opacity; between zones nothing |
| Sight.SightLineInside | domains/tabletop/spatial/perception.py:258-263 | the cells that can block are those strictly between the ends of the walk |
| Sight.VisibleExactly | domains/tabletop/spatial/perception.py:25-57 | who is seen, and with which confidence, entity by entity |
| Sight.RoundedIsNearest | domains/tabletop/spatial/perception.py:55-57 | a reported confidence is the nearest with six decimals, ties to even |
| ZoneTransmission.ZoneTransmission | domains/tabletop/spatial/perception.py:271-301 | the search ends although zones are queued again; between different zones the result is zero if and only if no walk of positive transmission joins them, and otherwise, along a walk with the fewest portals, the product of what the portals let through for the modality times one fifth for each closed or locked one, so at most (1/5)^k with k of these |
| ZoneTransmission.StrengthByFields | domains/tabletop/spatial/perception.py:287-300 | the strength of every walk is that product, in terms of the portals' fields and the number of shut ones |
| ZoneTransmission.ShutDoor | domains/tabletop/spatial/perception.py:287-294 | through one door sound passes in full if it is open and at a fifth if it is closed or locked |
| ZoneTransmission.ShortestIsNotLoudest | domains/tabletop/spatial/perception.py:297-298 | a concrete net in which the result is a tenth of full strength and another walk carries more |
| ZoneTransmission.EqualFactorsAreLoudest | domains/tabletop/spatial/perception.py:271-301 | when all portals share one factor, no carrying walk is louder than the result |
| ZoneTransmission.DetourIsLoudestIff | domains/tabletop/spatial/perception.py:271-301 | beside a direct portal of a and a way round over b and c the result is a, and the loudest if and only if b * c <= a |
| ZoneTransmission.CapsHold | domains/tabletop/spatial/perception.py:284-300 | bounds per zone that no single portal can exceed bound the strength of every walk |
| KernelState.BranchState.Apply | kernel/state.py:55-67 | one delta changes the projections as the delta function says, or fails only for an increment that cannot be added |
| KernelState.BranchState.AddAmounts | kernel/state.py:64-67 | an increment adds every amount or reports that some addition is impossible |
| KernelState.BranchState.WorkingCopy | kernel/state.py:40-49 | a fresh object with the same content |
| KernelState.BranchState.CloneForTrial | kernel/state.py:30-38 | a fresh trial branch with the same projections, their hash as base, and version zero |
| KernelState.DeltaEffect | kernel/state.py:55-67 | field by field: what the addressed record holds afterwards for each operation, that nothing else changes, and that even a delete leaves the projection behind |
| KernelState.DeltaFails | kernel/state.py:64-67 | a delta fails if and only if it increments some field by a value that cannot be added to it |
| KernelState.PlusMeans | kernel/state.py:64-67 | which values can be added, and that numbers are summed, flags counting as one or zero, and texts and lists joined |
| KernelState.ApplyAllConcat | kernel/state.py:55-67 | applying a list of deltas is applying its parts in turn, failures included |
| CommandBus.InMemoryStateStore.Publish | kernel/state.py:112-120 | projections, base, version and receipt of one branch change together, and nothing else |
| CommandBus.InMemoryStateStore.CreateTrial | kernel/state.py:122-131 | a trial is added exactly from a known canonical branch under an unused identifier |
| CommandBus.Bus.Register | kernel/command_bus.py:60-63 | a command type is registered once and never replaced |
| CommandBus.Bus.Run | kernel/command_bus.py:99-130 | the inner operation checks, calls the handler, applies the deltas and builds the receipt on the working copy |
| CommandBus.Bus.Execute | kernel/command_bus.py:71-132 | one execution changes the store and answers exactly as the bus function says |
| BusRuns.StepEffect | kernel/command_bus.py:97-132 | a submission either takes effect, and then adds its receipt and one version to its own branch alone, or leaves the whole store unchanged |
| BusRuns.OnlyFirstSuccessesCount | kernel/state.py:98-120 | any run equals the run of only the first successful submission of each key |
| BusRuns.EffectiveKeys | kernel/state.py:98-120 | those submissions have distinct keys that had no receipt before |
| BusRuns.EffectiveReceipts | kernel/state.py:98-120 | the receipts a run adds are exactly those of these submissions |
| BusRuns.EffectNeedsAuthority | kernel/command_bus.py:71-109 | what takes effect is a registered command, by the actor it names, with all required capabilities and that of the branch's kind, on an allowed kind of branch in the right world, for a controlled entity where one is needed |
| BusRuns.TakesEffectIff | kernel/command_bus.py:71-132 | a submission takes effect if and only if its key is new, it meets every check listed above, and its handler, result check, deltas and emission all succeed |
| BusRuns.FailedCommandChangesNothing | kernel/command_bus.py:99-130 | a result that fails its check, or deltas or an emission that cannot be made, change nothing |
| BusRuns.ReceiptTells | kernel/command_bus.py:99-130 | a receipt of what takes effect holds the handler's result for the normalized proposal, which passes the result check; an event with the key, world, branch, type and result fields; the hash of the branch after the deltas; and the emission's perceptions, in order, for the branch before and after |
| BusRuns.ReceiptsAreAuthorized | kernel/command_bus.py:71-132 | every receipt a run adds was made by the submission that took effect under its key; that submission met every check listed above in the state it met, and the receipt holds what its command's definition makes of the branch before and after it, as in ReceiptTells |
| BusRuns.ReceiptsStay | kernel/state.py:111-120 | a stored receipt is never replaced |
| BusRuns.RetryReturnsReceipt | kernel/command_bus.py:131-132 | at the bus, a retry that passes authorization and parameter checks gets the original receipt, whatever happened in between, and changes nothing |
| BusRuns.VersionCountsSuccesses | kernel/state.py:112-120 | a branch's version grows by the number of its successes; without one the branch keeps its whole state |
| Replay.ReplayEngine.Replay | kernel/replay.py:21-35 | the loop gives exactly the recorded fold of deltas on a copy, or the first divergence or failing delta |
| Replay.ReplayIsOneBatch | kernel/replay.py:25-35 | replaying record by record equals applying all logged deltas in one go |
| Replay.ReplayFailsAt | kernel/replay.py:28-34 | a replay fails at a record, counted from one, if and only if the records before it replay and its deltas cannot be applied, or give another state than the one recorded |
| Replay.ReplayedVersion | kernel/replay.py:27-35 | a replay adds one version per record and keeps the branch's identity |
| SimulationApplications.SimulationApplication.Submit | kernel/application.py:314-393 | checks, replay base, bus and ledger change exactly as the submission function says, and its error cases leave what they leave |
| SimulationApplications.SimulationApplication.EnsureBase | kernel/application.py:332-336 | before the first command a copy of the branch and the log length are kept; the copy is never a live branch |
| SimulationApplications.SimulationApplication.Enter | kernel/application.py:354-379 | entity mutations are entered one by one; an error stops half-way |
| SimulationApplications.SimulationApplication.CreateEntity | kernel/application.py:257-312 | the entity record is kept even when its controller is unknown; otherwise the branch is rewritten in place, past the command log |
| SimulationApplications.SimulationApplication.CreateBranchSnapshot | kernel/application.py:423-428 | the manifest records the branch's state and the length of its log |
| SimulationApplications.SimulationApplication.CreateTrial | kernel/application.py:430-483 | the trial branch, run and inherited entities are created if missing and never replaced |
| SimulationApplications.SimulationApplication.Replay | kernel/application.py:485-490 | the service replays the log suffix from the base, or copies the live branch |
| ApplicationRuns.SubmitCommits | kernel/application.py:345-387 | a submission that takes effect is exactly one commit and, if its entity bookkeeping succeeds, one ledger entry |
| ApplicationRuns.StaleSubmit | kernel/application.py:332-353 | a failing or repeated submission records at most a replay base |
| ApplicationRuns.RecordedIff | kernel/application.py:354-379 | entity bookkeeping succeeds if and only if every mutation names a free entity with a known controller, if any, or repeats the record already there |
| ApplicationEntities.EntriesExact | kernel/application.py:354-380 | entity by entity: a new one has exactly the record asked for, and every other record stays |
| ApplicationEntities.ControlExact | kernel/application.py:368-378 | an actor's control grows by exactly the new entities that name it, and its identity and capabilities stay |
| ApplicationEntities.LoggedEntities | kernel/application.py:352-387 | so for every command that is logged; one that was not accepted enters nothing |
| ApplicationEntities.InheritedExact | kernel/application.py:461-482 | a trial gets a copy of each canonical entity it does not have, with its projected public state if there is one, without name and type; nothing else changes |
| ApplicationEntities.WrittenExact | kernel/application.py:286-311 | a directly created entity gets its three records, and every other record stays |
| ApplicationRetries.RetryExact | kernel/application.py:314-393 | once a submission to the application was answered, a retry under its key changes nothing, whatever happened before and in between, and gets the first receipt, or the error of the first check that now refuses it |
| ApplicationRetries.SameRetryExact | kernel/application.py:314-331 | the very same proposal is refused exactly as an existing entity if it spawns one that is on the branch by now, and otherwise answered by the first receipt exactly if its actor may still send it |
| ApplicationRetries.AcceptedSpawnIsRefused | kernel/application.py:323-331 | an accepted spawn sent again is always refused and changes nothing, and so is every other spawn of that entity on that branch |
| Rebuilding.SubmitKeeps | kernel/application.py:314-393 | every submission keeps all branches, bases, snapshots and receipts consistent with the ledger |
| Rebuilding.RanKeeps | kernel/application.py:110-490 | so does every run from nothing in which direct writes change no branch with a base or a snapshot, and no trial |
| Rebuilding.GuaranteeIff | kernel/application.py:110-490 | throughout a run from nothing, replay gives every live branch if and only if no direct write changes a branch with a base and no command that takes effect has mutations that cannot be entered; and if all mutations can be entered, every snapshot rebuilds its branch if and only if no direct write changes a branch with a snapshot, and every trial's origin rebuilds it if and only if none changes a trial |
| Rebuilding.SpawnsAllEnter | kernel/application.py:323-379 | with handlers that create just the spawned entity, entity bookkeeping never stops in any run |
| Rebuilding.VersionsCountLogs | kernel/application.py:380-387 | whatever is written directly, every version counts the log |
| Rebuilding.ReplayRebuilds | kernel/application.py:485-490 | after a run that spares replay in that sense, with whatever handlers, replaying a branch never diverges and gives exactly its live projections and version |
| Rebuilding.SnapshotRebuilds | kernel/application.py:423-428 | after a run whose direct writes change no branch with a snapshot, whatever else they change, the log suffix of every snapshot rebuilds its branch, with the recorded command count as offset |
| Rebuilding.TrialRebuilds | kernel/application.py:430-452 | after a run whose direct writes change no trial, a trial is rebuilt by its whole log from the state it was opened on |
| Rebuilding.DirectWriteExact | kernel/application.py:257-312 | a direct entity write leaves a replayable branch replayable if and only if it has no base yet or the write changes nothing |
| Rebuilding.SnapshotWriteExact | kernel/application.py:257-312 | it leaves a snapshot rebuilding its branch if and only if the write changes nothing |
| Rebuilding.TrialWriteExact | kernel/application.py:257-312 | and the origin of a trial rebuilding the trial likewise |
| Rebuilding.LateWriteBreaksReplay | kernel/application.py:257-336 | a concrete run from nothing: after one failed command a direct write makes replay differ from the live branch |
| Rebuilding.CommitRebuildsIff | kernel/application.py:352-387 | a command that takes effect leaves its branch replayable if and only if each of its entity mutations names a free entity with a known controller, if any, or repeats the record already there |
| Rebuilding.StrayMutationBreaksReplay | kernel/application.py:352-387 | a concrete run from nothing: a command commits, but its entity is for an unknown controller, and replay stays a version behind |
| Hydration.Latest | kernel/postgres_control_plane.py:515-526 | the chosen snapshot of the branch goes furthest within the log, ties decided by identifier |
| Hydration.SelectBasis | kernel/postgres_control_plane.py:510-553 | the chosen basis and offset replay to the live branch if and only if the furthest snapshot rebuilds it, or without one the trial's origin; no snapshot would leave a shorter log, and only an empty log is left without a basis |
| Hydration.RestartRebuilds | kernel/postgres_control_plane.py:510-553 | after every run whose direct writes change no snapped branch and no trial, whatever became of the bases, every choice rebuilds its branch |
| Hydration.SnapshotRepairsIff | kernel/postgres_control_plane.py:516-526 | a new snapshot repairs what direct writes broke if and only if it is chosen, or the chosen one of the same length has the same state |
| Promotion.FastForward | kernel/branching.py:27-41 | a package with all of a trial's logged deltas in order is accepted if and only if the canonical state is still the trial's base; the canonical projections are then the trial's |
| Promotion.PassedOnIff | kernel/api/app.py:2177-2185 | a package is passed on if and only if it goes from a trial to a canonical branch of the same world, expects the state the trial was opened on, and carries a delta and a note of at most 2000 characters; any other one changes nothing |
| Promotion.MovedCanonicalIsKept | kernel/api/app.py:2176-2203 | if canonical moved since the base, any package leaves store, log and events unchanged |
| DependencyOrder.DependencyWalk.Visit | persona/registry.py:104-113 | the depth-first visit finishes the node with everything below it, or there is a cycle |
| DependencyOrder.CheckAcyclic | persona/registry.py:101-116 | the check passes if and only if the dependencies have no cycle |
| DependencyOrder.Ordered | persona/registry.py:118-131 | the layered loop ends; it gets stuck if and only if there is a cycle, and otherwise lists each dimension once after everything it waits for |
| DependencyOrder.LayersDecide | persona/registry.py:118-131 | the same of the layers as a function of the graph |
| PersonaSchema.ValidateGraph | persona/registry.py:58-116 | the schema check passes if and only if the schema is well formed and its generation dependencies have no cycle |
| PersonaSchema.AcceptedIsOrdered | persona/registry.py:101-139 | on well-formed schemas the cycle check and the layered order agree |
| PersonaSchema.ConstraintErrors | persona/registry.py:170-192 | the loops list, rule by rule, the violations of the rules that fire |
| PersonaSchema.PartialErrors | persona/registry.py:170-192 | a partial check reports something if and only if some fired rule is contradicted by values present |
| PersonaSchema.ErrorsStay | persona/registry.py:170-192 | an error of a partial assignment is an error of every extension, partial or complete |
| PersonaSchema.UncontradictedErrors | persona/registry.py:170-192 | without contradictions the complete check can only miss required dimensions |
| PersonaValidator.ValidateDimensions | persona/validation/validator.py:15-52 | unknown names, the walk over the ordered dimensions, and the rules, in that order |
| PersonaValidator.ConsistentWalk | persona/validation/validator.py:27-44 | an assignment whose values are exactly the enabled, valid ones passes the walk and activates exactly its dimensions |
| PersonaValidator.CleanIsConsistent | persona/validation/validator.py:27-44 | conversely a complete walk without findings has walked such an assignment |
| PersonaValidator.WalkFinds | persona/validation/validator.py:27-44 | the walk reports exactly the switched-off dimensions with a value, the needed ones without, and the invalid values |
| PersonaValidator.WalkKnows | persona/validation/validator.py:27-44 | and relies on the given values of exactly the dimensions that are switched on and valid |
| PersonaGenerator.Choose | persona/generation/generator.py:195-234 | a choice is a feasible candidate of positive weight, and fails if and only if the distribution is malformed or there is none |
| PersonaGenerator.Draw | persona/generation/generator.py:68-99 | a value that can be drawn, or an error if and only if there is none: for an integer an empty range, otherwise no feasible value of positive weight or a malformed distribution |
| PersonaGenerator.RangeMeans | persona/generation/generator.py:92-94 | integers are drawn between the bounds cut to whole numbers, absent or zero ones counting as 0 and 100 |
| PersonaGenerator.Place | persona/generation/generator.py:53-114 | one dimension is skipped, or given a drawn value that is valid and contradicts no rule; it fails only if it is switched off but fixed or distributed, nothing can be drawn, or something that can be drawn is invalid or contradicts a rule |
| PersonaGenerator.Assign | persona/generation/generator.py:52-116 | whatever is drawn, the values follow fixed values, distributions and ranges, are exactly the enabled ones, and contradict no rule; an error names a dimension where one of the failures above occurs, after values that the dimensions before it can have been given |
| PersonaGenerator.Generate | persona/generation/generator.py:24-136 | a returned persona also passes the validator; conflicting requests are refused; and an error comes only from a refused request, from a dimension as above, or from the final check |
| PersonaTheorems.RefusedIff | persona/generation/generator.py:34-47 | a request is refused if and only if it names unknown dimensions, fixes and distributes one, or fixes values that are invalid, switch one another off or contradict a rule |
| PersonaTheorems.FreeGenerationCannotFail | persona/generation/generator.py:52-136 | for an accepted schema without rules, with nothing fixed or distributed, generation cannot fail with presets, and without them if every number that can be drawn is valid, as always for enum and boolean dimensions |
| PersonaTheorems.PresetsAreGenerated | persona/generation/generator.py:71-73 | with presets, the persona has the preset of exactly the dimensions its own values enable |
| PersonaTheorems.DrawnLeavesOn | persona/generation/generator.py:252-264 | a drawn value never switches off a dimension that was fixed or given a distribution |
| PersonaTheorems.FinalCheck | persona/generation/generator.py:134-136 | at the final check the validator activates exactly the generated dimensions and can only report fired rules requiring an inactive one |
| PersonaTheorems.FinalCheckFailsIff | persona/generation/generator.py:134-136 | the final check reports something if and only if a rule that fires requires a dimension that was left out |
| PersonaTheorems.RootsPassFinalCheck | persona/generation/generator.py:134-136 | so it cannot fail for a schema whose rules only require dimensions without parents |
| PersonaTheorems.LookAheadExact | persona/generation/generator.py:218-231 | for whatever distributions, a value some completion keeps is given up if and only if a rule that already fires asks something to which an empty distribution, or one on a numeric dimension, gives no weight |
| PersonaTheorems.LookAheadIsSound | persona/generation/generator.py:252-294 | so without such distributions a rejected candidate has no completion that respects fixed values and distributions and passes validation |
| PersonaTheorems.EmptyDistributionIsClosed | persona/generation/generator.py:231-294 | a concrete schema and empty distribution for which a completable value is given up |
| PersonaTheorems.NumericDistributionIsHeldAgainst | persona/generation/generator.py:92-94 | the same for a distribution on an integer dimension |
| Beliefs.Revise | cognition/beliefs.py:46-117 | the loops give exactly the revision, and refuse two claims on one key |
| Beliefs.NoisyOr | cognition/beliefs.py:66 | the rounded noisy-or stays within zero and one and below neither input |
| Beliefs.Product | cognition/beliefs.py:63 | the rounded product stays within zero and one and above neither input |
| Beliefs.RoundNear | cognition/beliefs.py:63-66 | rounding moves a value by at most half a millionth |
| Beliefs.ProductNear | cognition/beliefs.py:63 | the rounded product is within half a millionth of the product |
| Beliefs.NoisyOrNear | cognition/beliefs.py:66 | the rounded noisy-or is within half a millionth of one minus the product of the doubts |
| BeliefRuns.ClaimDecides | cognition/beliefs.py:62-112 | after an observation the one belief in force under a claimed key is the earlier one strengthened if the value agrees and a new one otherwise, and a disagreeing one is kept as contradicted |
| BeliefRuns.AssertedFields | cognition/beliefs.py:62-112 | the belief in force after a claim, field by field: what is kept, the confidence it gets, and the observation it rests on |
| BeliefRuns.ContradictedFields | cognition/beliefs.py:79-87 | a contradicted belief only gets the event that contradicts it and its time |
| BeliefRuns.ObservationKeeps | cognition/store.py:139-147 | one observation with a new identifier loses no belief and leaves at most one belief in force per key |
| BeliefRuns.LivedOrderly | cognition/store.py:116-147 | so over any run of distinct observations identifiers stay distinct and derived from the observations, and each key has at most one belief in force |
| BeliefRuns.NothingIsLost | cognition/store.py:116-147 | over any such run a belief keeps identity, key and value, its confidence never drops, and once contradicted it never changes |
| MindStores.MindStore.ApplySubjectiveUpdate | cognition/store.py:94-114 | an update changes one mind, stores its observation once and files its evidence; an observation of somebody else is refused |
| MindStores.FiledExact | cognition/store.py:110-111 | under each place stays what was filed there, or else the first record with that identifier, and nothing else is filed |
| MindStores.MindStore.PreviewSubjectiveUpdate | cognition/store.py:116-137 | the projected mind, without storing anything |
| MindStores.RememberedExact | cognition/store.py:131-135 | a memory is added at the end exactly if none with its identifier is there |
| MindStores.Absorb | cognition/store.py:94-137 | observing, revising and storing keeps every belief the mind held and keeps it orderly |
| ProjectorTheorems.PublishedIsProjected | cognition/projector.py:36-45 | in every interleaving a published row has the observation of each matching grant stored |
| ProjectorTheorems.OnlyHolderPublishes | cognition/projector.py:136-144 | a row is published exactly when its current claim holder completes it |
| ProjectorTheorems.PublishedIsFinal | cognition/projector.py:53-81 | a published row never changes again |
| ProjectorTheorems.ProjectingAgainChangesNothing | cognition/projector.py:94-134 | once an event is projected and no worker holds a copy loaded before that, any later work on it changes no mind |
| ProjectorTheorems.RanKeeps | cognition/projector.py:36-158 | claims, loads, saves, releases, completions, expiries and crashes in any order keep rows and workers' progress truthful; how long a claim excludes others is said by the next rows |
| ProjectorLeases.LeaseExcludes | cognition/projector.py:53-77 | after a worker claims a row, in any run no claim takes it for 300 seconds unless the holder completes it or fails at it before |
| ProjectorLeases.CrashedRowReturns | cognition/projector.py:59-77 | a row whose worker crashed can be claimed by an idle worker, as long as nobody has, if and only if more than 300 seconds have passed since the claim |
| ProjectorLeases.OneRowClaim | cognition/projector.py:60-62 | an idle worker can claim a row if and only if it is unpublished, available, and not claimed within the last 300 seconds |
| ProjectorLeases.FailedRowWaits | cognition/projector.py:146-158 | a row its holder failed at for the (n+1)-st time, n at most thirty, cannot be claimed in any run before 2^n seconds, at most 300, are over; then it can be claimed by an idle worker if and only if that time is over, as long as nobody has |
| ProjectorLeases.LastFailureCrashes | cognition/projector.py:153 | with more than thirty failures before, computing the wait overflows and brings the worker down |
| ProjectorMinds.TimelyRunIsSerial | cognition/projector.py:94-134 | when every save is based on the mind as it is, an interleaved run gives each observer exactly the mind of living through its observations one after the other |
| ProjectorMinds.WrittenOnce | cognition/projector.py:118-121 | in such a run no observation is applied twice |
| ProjectorMinds.RacingSavesLeaveTwo | cognition/postgres.py:127-160 | two saves based on the same empty mind, with different values under one key, leave two beliefs in force under it |
| ProjectorRaces.ProjectedRowStep | cognition/projector.py:94-134 | a step on a row whose event is fully projected writes a mind if and only if it decides a matching grant with readable, distinct claims on a copy without the observation; it adds no observation, and changes the mind exactly if that does not hold some belief as it is saved |
| ProjectorRaces.SaveFollowsTheCopy | cognition/postgres.py:127-160 | a save decides every loaded belief by the copy, whatever became of it since: unclaimed or contradicted ones as loaded, denied ones contradicted, affirmed ones strengthened |
| ProjectorRaces.ContradictionUndone | cognition/postgres.py:127-160 | a belief contradicted since the load is in force again after the save if and only if the observation does not deny it |
| ProjectorRaces.SaveLeavesTheRest | cognition/postgres.py:127-160 | beliefs that are not part of the save, and other minds, are left alone |
| ProjectorRaces.SaveOrderlyIff | cognition/postgres.py:127-160 | a save over an orderly mind leaves at most one belief in force per key if and only if no belief in force that entered since the load shares a key with one in force in what is saved |
| ProjectorRaces.OrderlyRunIff | cognition/projector.py:36-158 | from minds and copies in good order, every mind keeps at most one belief in force per key throughout an interleaving if and only if no save of it collides like that |
| ProjectorRaces.FreshRunIff | cognition/projector.py:36-158 | and so from an empty outbox |
| ProjectorRaces.FateDecided | cognition/beliefs.py:62-112 | what becomes of each belief under an observation: kept as it is, strengthened or contradicted |
| ProjectorRuns.RaceFromFresh | cognition/projector.py:36-134 | from an empty outbox, two workers that load before either saves leave two beliefs in force under one key |
| ProjectorRuns.StaleAgainRevives | cognition/projector.py:53-144 | from an empty outbox, with every event published and projected, a worker that outlived its lease brings a contradicted belief back into force next to the one that replaced it |
| Jobs.JobManager.CreateResumable | experiments/jobs.py:75-109 | a job is created once; creating it again only replaces its runner |
| Jobs.JobManager.Begin | experiments/jobs.py:147-168 | only a queued job is started, and is marked running even if no runner is attached |
| Jobs.JobManager.Conclude | experiments/jobs.py:169-187 | the finished record is terminal and keeps all bookkeeping; it is completed exactly if the runner returned and no cancellation was pending, with the runner's value and full progress, and failed exactly if it raised |
| Jobs.RecordFields | experiments/jobs.py:147-246 | what starting, checkpointing, cancelling and retrying change in a record, and what they leave |
| Jobs.FinishedFields | experiments/jobs.py:169-187 | what a finished record says of message, result and progress in each of its outcomes |
| Jobs.CompletedChangesIff | experiments/jobs.py:169-190 | a completed record changes later if and only if a thread still in its runner or holding its record stores a different one |
| Jobs.CompletedThenFailed | experiments/jobs.py:147-246 | a concrete run in which every finished record is stored at once and a completed job ends up failed |
| Jobs.CompletedWasReturned | experiments/jobs.py:169-190 | in every interleaving a value reported by a completed job was returned by a runner at a moment without a pending cancellation |
| Jobs.JobManager.Checkpoint | experiments/jobs.py:192-203 | only running jobs checkpoint, with progress below one |
| Jobs.CheckpointKept | experiments/jobs.py:192-246 | the runner of a retry finds the last checkpoint that was accepted, as long as no finished record is stored over it |
| Jobs.JobManager.Cancel | experiments/jobs.py:215-227 | completed and failed jobs cannot be cancelled |
| Jobs.CancelDecided | experiments/jobs.py:215-227 | a cancellation changes nothing in a completed or failed job, and marks any other one as cancelled |
| Jobs.JobManager.Retry | experiments/jobs.py:229-246 | only failed or cancelled jobs below the limit are queued again, with the next attempt |
| Jobs.AttemptsBounded | experiments/jobs.py:147-246 | in every interleaving of the locked sections the attempt stays within the limit |
| Jobs.StartsNeedRetries | experiments/jobs.py:147-190 | in every interleaving starts are at most the initial queueing plus the successful retries |
| Jobs.StartsExact | experiments/jobs.py:147-246 | exactly: starts, queueings lost to a store or a cancellation, and a last one still waiting add up to the initial queueing plus the retries |
| Jobs.AttemptCountsRetries | experiments/jobs.py:169-190 | unless a retry is granted between a thread's finishing and storing, the attempt counts the retries |
| Jobs.StartsWithinLimit | experiments/jobs.py:147-246 | a run with more starts than the limit leaves room for contains such a retry |
| Jobs.AtOnceIsEnough | experiments/jobs.py:169-190 | storing right after computing rules such retries out |
| Jobs.LoweredExactly | experiments/jobs.py:169-246 | over any run the attempt goes down in some section if and only if a retry is granted while a thread holds a finished record that it later stores |
| Jobs.LateStoresDefeatTheLimit | experiments/jobs.py:169-246 | with two attempts allowed there are interleavings with any number of starts |
| Lifecycle.PopulationLifecycle.Commit | population/lifecycle.py:176-213 | a transition is appended and the member replaced, unless the step is negative or goes back |
| Lifecycle.AcceptedIff | population/lifecycle.py:183-189 | a transition is accepted if and only if its step is not negative and no recorded one of the persona is later |
| Lifecycle.PopulationLifecycle.Register | population/lifecycle.py:73-87 | a persona is registered once, and its profile never replaced |
| Lifecycle.RegisteredAgain | population/lifecycle.py:74-78 | registering a persona again changes nothing, and is accepted if and only if the profile is the same |
| Lifecycle.ProfileStays | population/lifecycle.py:73-213 | in every run a persona keeps the profile it was registered with |
| Lifecycle.PopulationLifecycle.Materialize | population/lifecycle.py:89-123 | registration happens first and stays even if the rest fails |
| Lifecycle.MaterializedPlace | population/lifecycle.py:107-123 | a persona is materialized in the world and the branch asked for, or else in those of the lifecycle; in both or in neither |
| Lifecycle.PopulationLifecycle.Activate | population/lifecycle.py:125-144 | only a materialized persona becomes active |
| Lifecycle.PopulationLifecycle.Deactivate | population/lifecycle.py:146-174 | the preserved part of the active state and the compression are merged into the persistent state |
| Lifecycle.DeactivationKeeps | population/lifecycle.py:157-171 | field by field what survives a deactivation: compressed, else preserved from the active state, else kept as before |
| Lifecycle.RanKeeps | population/lifecycle.py:73-213 | in every run each persona's transitions form a legal chain with consecutive versions and non-decreasing steps, ending in the member as it stands, and members that are not active have no active state |
| Lifecycle.EveryRunOrderly | population/lifecycle.py:73-213 | so it is for every persona in every run from an empty book, with sequence numbers without gaps |
| Lifecycle.KeysStay | population/lifecycle.py:146-174 | once materialized a persona never loses a persistent key |
| Lifecycle.HistoryGrows | population/lifecycle.py:211-212 | recorded transitions stay recorded in place |
| Lockout.LoginService.Login | identity/service.py:31-66 | one login changes at most the account's own record, in each of its five outcomes |
| Lockout.RightPasswordDecides | identity/service.py:43-61 | a right password is accepted if and only if the account is active and not locked any more; an inactive account is reported before a lock; only acceptance changes the record |
| Lockout.FifthFailureLocks | identity/service.py:48-55 | the fifth wrong password in a row, and none before, locks the account for fifteen minutes |
| Lockout.LoginService.SetPassword | identity/repository.py:228-244 | a new password clears count and lock |
| Lockout.ReachableAlways | identity/service.py:47-50 | a lock is recorded if and only if the count is five |
| Lockout.LockIsFixed | identity/service.py:44-66 | attempts during a lock leave the record unchanged |
| Lockout.LockEnds | identity/service.py:293-295 | so the right password is accepted when the lock was set to end |
| Lockout.GuessesPerWindow | identity/service.py:39-66 | in any window without a success at most 5 * (floor(length / 15 min) + 1) wrong passwords are judged while unlocked |
| Lockout.BoundIsReached | identity/service.py:39-66 | in a window of any length there are attempts that reach the bound |
| LockoutRaces.InterleavedGuesses | identity/service.py:39-66 | however logins interleave, the wrong passwords judged in a window without a success exceed that bound by at most five for each judged by an outdated copy of the record |
| LockoutRaces.NoBoundAtOnce | identity/service.py:39-66 | any number of wrong passwords can be judged at one moment, and the record then counts at most one of them |
| Onboarding.Verify | experiments/player_evaluation.py:40-109 | the loop computes exactly the recount, with all its counters |
| Onboarding.FirstValidExact | experiments/player_evaluation.py:62-67 | the recounted time to the first valid action is the position of the first valid event |
| Onboarding.RepeatedExact | experiments/player_evaluation.py:68-82 | repeated failures are the invalid events right after another one with the same action in upper case |
| Onboarding.MarksExact | experiments/player_evaluation.py:94-109 | hints, deaths, blocked paths, contradictions, clues, abandonments and comprehensions are the numbers of events that carry the mark |
| Onboarding.ReasonsExact | experiments/player_evaluation.py:68-74 | every reason of failure is counted once for each invalid event that gives it, or that gives none and whose action makes it |
| Onboarding.RecordTells | domains/tabletop/onboarding.py:41-88 | valid events are the step index, an entity is done exactly at the sixth step, invalid and helped events are the other counters |
| Onboarding.LoopsExact | domains/tabletop/onboarding.py:64-81 | a dialogue loop is recorded for each request for help before completion that repeats one made in the same step |
| Onboarding.SixActionsComplete | domains/tabletop/onboarding.py:41-88 | the six actions, by name, that complete an onboarding |
| Onboarding.ValidInOrder | domains/tabletop/onboarding.py:76-83 | the valid actions of any run are the expected actions, once each and in order, up to the step reached |
| Onboarding.RecountAgrees | experiments/player_evaluation.py:62-93 | for every action sequence the recount gives the record's invalid actions and dialogue loops |
| Onboarding.ReportedAgrees | experiments/player_evaluation.py:111-130 | counters in the final state take precedence, and for a state taken from the record the report gives the record's invalid actions and dialogue loops with or without them |
| Onboarding.HelpRecountExact | experiments/player_evaluation.py:80-82 | the recount exceeds the recorded help requests by the unanswered ones; they agree if and only if every action that reads ASK_HELP in upper case is exactly that and comes before completion |
| Onboarding.HelpRecountDiffers | experiments/player_evaluation.py:80-82 | a lower-case request, and one after the sixth step, are recounted but not recorded |
| Onboarding.HintRecountExact | experiments/player_evaluation.py:94-95 | the hint counts agree if and only if no help was asked for in the third step |

## Left out

- Floating point: costs, confidences and transmissions are exact; rounding to a number of decimals is modelled as half to even on exact values.
- Values of different kinds are never equal here, while the host language also equates true with one and one with 1.0.
- Planner.Plan: the state key text is replaced by the state itself, and the heap by extract-min on a sequence.
- Sight.VisibleEntities: the targets are taken in any order, since the result is a dictionary; reading positions, zones and occluders out of the projections is not modelled.
- Sound confidence, audiences and grants of an emission: built from the modelled parts by single formulas.
- ZoneTransmission.ZoneTransmission: says nothing about strength beyond a walk with the fewest portals, because the search does not give more.
- BusRuns.StepEffect: handlers are functions, so a handler that changes the working copy itself, which the copy would hide, is not modelled.
- Durable execution, the subjective projector callback and the stored perceptions of the application: foreign stores behind the same commit.
- Application identifiers, slugs, dates and tracing fields of proposals and events.
- Rebuilding.SnapshotRebuilds: for runs, as for trials, in which all entity mutations can be entered, as they always can if handlers create just the spawned entity; what happens to replay otherwise is said exactly.
- SimulationApplications.SimulationApplication.CreateEntity: the three records projected for the entity are arguments, so the results hold for whatever records, but building them from the public state with its number conversions is not modelled, nor is creating an entity without projecting it.
- Hydration.SelectBasis: the projection version stored with a snapshot is taken to be the number of commands it went through.
- Promotion.FastForward: assumes the submitter may promote and the promotion key is new; RetryReturnsReceipt covers a used key.
- PersonaGenerator.Generate: provenance, derived traits and the identifier of a persona, and the wording of errors.
- PersonaTheorems.LookAheadExact: about one candidate value; whether choosing value after value ends in a persona whenever some completion exists is not treated.
- Beliefs.Revise: the tuple order of keys and identifiers is the order of one text each, and claims are given rather than parsed; relationships are not modelled, nor how evidence records are formed.
- ProjectorMinds.TimelyRunIsSerial: memories, mood and goals of a mind are not part of the projected state, and worker identifiers are taken to be unique to a process.
- Projector.Listing: a stored mind is listed by identifier, while the database lists by update time and then identifier, which decides which of two beliefs in force under one key a later event revises.
- ProjectorTheorems.RanKeeps: a claim may take any eligible rows; their order and the limit on their number are not modelled.
- Jobs.StartsWithinLimit: the interleavings are those of one job, since jobs share only the lock; restoring jobs after a restart is the initial state.
- Lifecycle.RanKeeps: restoring an externally stored history is not modelled.
- Lockout.LoginService.Login: verification is equality of passwords; sessions are not modelled.
- LockoutRaces.InterleavedGuesses: password changes and account switches during a run are not modelled.
- Onboarding.Verify: an event's type and flags are given as the set of marks they stand for, letter case is an arbitrary function, and event identifiers collected as evidence are counted only.
- Routes, command line, frontend, SQL, report generation, telemetry and most tabletop handlers: plumbing or one-step arithmetic.
