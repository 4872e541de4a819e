/** The outbox projector: leased claims, retries and crashes of any number of workers, as atomic steps. */
module Projector {
  import opened Wrappers
  import opened TextSets
  import opened Beliefs
  import opened BeliefRuns

  const LEASE: nat := 300

  const LONGEST_DELAY: nat := 300

  // From this many attempts on, the power in the delay no longer fits the column type and the update itself fails.
  const LAST_DELAY: nat := 31

  // What an event shows one observer. Its content, and so its observation, does not depend on any mind.
  // Claims that cannot be read make the projection of the event fail.
  datatype Grant = Grant(matches: bool, observer: nat, observation: Observation, claims: Option<seq<Claim>>)

  datatype Lease = Lease(worker: nat, at: nat)

  datatype Row = Row(grants: seq<Grant>, published: bool, lease: Option<Lease>, availableAt: nat, attempts: nat)

  // Stored beliefs of one observer, by identifier.
  type Shelf = map<string, Belief>

  datatype Snapshot = Snapshot(shelf: Shelf, observations: set<nat>)

  // What a worker still has to do: its claimed rows, the first one in progress up to a grant.
  datatype Job = Job(todo: seq<nat>, next: nat, loaded: Option<Snapshot>)

  datatype State = State(
    now: nat, rows: map<nat, Row>, shelves: map<nat, Shelf>, stored: map<nat, set<nat>>, jobs: map<nat, Job>)

  datatype Step =
    | Tick(seconds: nat)
    | Claim(worker: nat, ids: seq<nat>)
    | Load(worker: nat)
    | Decide(worker: nat)
    | Fail(worker: nat)
    | Complete(worker: nat)
    | Crash(worker: nat)

  function ShelfOf(s: State, observer: nat): Shelf {
    if observer in s.shelves then s.shelves[observer] else map[]
  }

  function StoredOf(s: State, observer: nat): set<nat> {
    if observer in s.stored then s.stored[observer] else {}
  }

  function Listing(shelf: Shelf): seq<Belief> {
    var ids := SortedNames(shelf.Keys);
    seq(|ids|, i requires 0 <= i < |ids| => assert ids[i] in Names(ids); shelf[ids[i]])
  }

  predicate Eligible(row: Row, now: nat) {
    && !row.published && row.availableAt <= now
    && (row.lease.Some? ==> row.lease.value.at + LEASE < now)
  }

  predicate Busy(s: State, worker: nat) {
    worker in s.jobs && s.jobs[worker].todo != [] && s.jobs[worker].todo[0] in s.rows
  }

  function Current(s: State, worker: nat): nat
    requires Busy(s, worker)
  {
    s.jobs[worker].todo[0]
  }

  predicate AtGrant(s: State, worker: nat) {
    Busy(s, worker) && s.jobs[worker].next < |s.rows[Current(s, worker)].grants|
  }

  function GrantAt(s: State, worker: nat): Grant
    requires AtGrant(s, worker)
  {
    s.rows[Current(s, worker)].grants[s.jobs[worker].next]
  }

  predicate Holds(row: Row, worker: nat) {
    row.lease.Some? && row.lease.value.worker == worker
  }

  predicate CanClaim(s: State, worker: nat, ids: seq<nat>) {
    && (worker in s.jobs ==> s.jobs[worker].todo == [])
    && (forall i :: 0 <= i < |ids| ==> ids[i] in s.rows && Eligible(s.rows[ids[i]], s.now))
  }

  predicate Can(s: State, step: Step) {
    match step
    case Tick(_) => true
    case Claim(w, ids) => CanClaim(s, w, ids)
    case Load(w) => AtGrant(s, w) && s.jobs[w].loaded.None?
    case Decide(w) => AtGrant(s, w) && s.jobs[w].loaded.Some?
    case Fail(w) => Busy(s, w)
    case Complete(w) => Busy(s, w) && s.jobs[w].next == |s.rows[Current(s, w)].grants|
    case Crash(w) => true
  }

  function Claimed(s: State, worker: nat, ids: seq<nat>): map<nat, Row> {
    map id | id in s.rows :: if id in ids then s.rows[id].(lease := Some(Lease(worker, s.now))) else s.rows[id]
  }

  function Power(n: nat): nat {
    if n == 0 then 1 else 2 * Power(n - 1)
  }

  function Delay(attempts: nat): nat {
    if Power(attempts) < LONGEST_DELAY then Power(attempts) else LONGEST_DELAY
  }

  // The next claimed row, from its first grant.
  function Onward(s: State, worker: nat): map<nat, Job>
    requires Busy(s, worker)
  {
    s.jobs[worker := Job(s.jobs[worker].todo[1..], 0, None)]
  }

  // Gives the row back for a later attempt if the worker still holds it; too many attempts bring the worker down.
  function Released(s: State, worker: nat): State
    requires Busy(s, worker)
  {
    var id := Current(s, worker);
    var row := s.rows[id];
    if !Holds(row, worker) then s.(jobs := Onward(s, worker))
    else if row.attempts >= LAST_DELAY then s.(jobs := s.jobs - {worker})
    else
      s.(jobs := Onward(s, worker),
         rows := s.rows[id := row.(attempts := row.attempts + 1, availableAt := s.now + Delay(row.attempts),
                                   lease := None)])
  }

  function Passed(s: State, worker: nat): map<nat, Job>
    requires worker in s.jobs
  {
    s.jobs[worker := Job(s.jobs[worker].todo, s.jobs[worker].next + 1, None)]
  }

  // The upsert of a projected mind, with its observation.
  function Saved(s: State, worker: nat, grant: Grant, projected: seq<Belief>): State
    requires worker in s.jobs
  {
    s.(jobs := Passed(s, worker),
       shelves := s.shelves[grant.observer := ShelfOf(s, grant.observer) + ById(projected)],
       stored := s.stored[grant.observer := StoredOf(s, grant.observer) + {grant.observation.id}])
  }

  datatype Outcome = Skip | Raise | Write(projected: seq<Belief>)

  // The update computed from the mind as it was loaded; claims are read before the observation is looked up.
  function OutcomeOf(name: Naming, grant: Grant, loaded: Snapshot): (r: Outcome)
    ensures r.Skip? ==> !grant.matches || grant.observation.id in loaded.observations
    ensures r.Write? ==> grant.matches && grant.observation.id !in loaded.observations && grant.claims.Some?
                         && DistinctClaims(grant.claims.value)
                         && r.projected == Observed(name, Listing(loaded.shelf), grant.observation, grant.claims.value)
  {
    if !grant.matches then Skip
    else if grant.claims.None? then Raise
    else
      match Revised(name, grant.observation, grant.claims.value, Listing(loaded.shelf))
      case None => Raise
      case Some(revision) => if grant.observation.id in loaded.observations then Skip else Write(Projected(revision))
  }

  function Decided(name: Naming, s: State, worker: nat): State
    requires AtGrant(s, worker) && s.jobs[worker].loaded.Some?
  {
    var grant := GrantAt(s, worker);
    match OutcomeOf(name, grant, s.jobs[worker].loaded.value)
    case Skip => s.(jobs := Passed(s, worker))
    case Raise => Released(s, worker)
    case Write(projected) => Saved(s, worker, grant, projected)
  }

  function Completed(s: State, worker: nat): State
    requires Busy(s, worker)
  {
    var id := Current(s, worker);
    s.(jobs := Onward(s, worker),
       rows := if Holds(s.rows[id], worker) then s.rows[id := s.rows[id].(published := true, lease := None)]
               else s.rows)
  }

  function Next(name: Naming, s: State, step: Step): State
    requires Can(s, step)
  {
    match step
    case Tick(n) => s.(now := s.now + n)
    case Claim(w, ids) => s.(rows := Claimed(s, w, ids), jobs := s.jobs[w := Job(ids, 0, None)])
    case Load(w) =>
      var observer := GrantAt(s, w).observer;
      s.(jobs := s.jobs[w := s.jobs[w].(loaded := Some(Snapshot(ShelfOf(s, observer), StoredOf(s, observer))))])
    case Decide(w) => Decided(name, s, w)
    case Fail(w) => Released(s, w)
    case Complete(w) => Completed(s, w)
    case Crash(w) => s.(jobs := s.jobs - {w})
  }

  // Any interleaving: steps that cannot be taken are passed over.
  function Ran(name: Naming, s: State, steps: seq<Step>): State
    decreases |steps|
  {
    if steps == [] then s
    else Ran(name, if Can(s, steps[0]) then Next(name, s, steps[0]) else s, steps[1..])
  }
}
