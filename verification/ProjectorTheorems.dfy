/** What every interleaving of projector workers keeps, and what holds when no two of them race on a mind. */
module ProjectorTheorems {
  import opened Wrappers
  import opened Beliefs
  import opened BeliefRuns
  import opened Projector

  type StoredIds = map<nat, set<nat>>

  predicate Stored(stored: StoredIds, g: Grant) {
    g.observer in stored && g.observation.id in stored[g.observer]
  }

  // The matching grants up to a point have their observations stored.
  ghost predicate Done(stored: StoredIds, grants: seq<Grant>, upto: nat) {
    forall j :: 0 <= j < upto && j < |grants| && grants[j].matches ==> Stored(stored, grants[j])
  }

  ghost predicate RowOk(stored: StoredIds, row: Row) {
    row.published ==> row.lease.None? && Done(stored, row.grants, |row.grants|)
  }

  ghost predicate JobOk(rows: map<nat, Row>, stored: StoredIds, job: Job) {
    && (forall i :: 0 <= i < |job.todo| ==> job.todo[i] in rows)
    && (job.todo != [] ==> var grants := rows[job.todo[0]].grants;
                           && job.next <= |grants| && Done(stored, grants, job.next)
                           && (job.loaded.Some? ==>
                                 job.next < |grants| && LoadedOk(stored, grants[job.next], job.loaded.value)))
  }

  ghost predicate LoadedOk(stored: StoredIds, g: Grant, loaded: Snapshot) {
    forall id :: id in loaded.observations ==> g.observer in stored && id in stored[g.observer]
  }

  ghost predicate Inv(s: State) {
    && (forall id :: id in s.rows ==> RowOk(s.stored, s.rows[id]))
    && (forall w :: w in s.jobs ==> JobOk(s.rows, s.stored, s.jobs[w]))
  }

  ghost predicate Fresh(s: State) {
    s.jobs == map[] && forall id :: id in s.rows ==> !s.rows[id].published
  }

  lemma FreshInv(s: State)
    requires Fresh(s)
    ensures Inv(s)
  {
  }

  // Stored observations only grow, and a row keeps its grants.
  ghost predicate Grows(before: StoredIds, after: StoredIds) {
    forall o :: o in before ==> o in after && before[o] <= after[o]
  }

  ghost predicate SameGrants(before: map<nat, Row>, after: map<nat, Row>) {
    before.Keys == after.Keys && forall id :: id in before ==> after[id].grants == before[id].grants
  }

  lemma ReleasedFrame(s: State, w: nat)
    requires Busy(s, w)
    ensures var t := Released(s, w); t.shelves == s.shelves && t.stored == s.stored && SameGrants(s.rows, t.rows)
  {
  }

  lemma DecidedGrows(name: Naming, s: State, w: nat)
    requires Can(s, Decide(w))
    ensures Grows(s.stored, Decided(name, s, w).stored) && SameGrants(s.rows, Decided(name, s, w).rows)
  {
    ReleasedFrame(s, w);
  }

  lemma NextGrows(name: Naming, s: State, step: Step)
    requires Can(s, step)
    ensures Grows(s.stored, Next(name, s, step).stored) && SameGrants(s.rows, Next(name, s, step).rows)
  {
    match step
    case Decide(w) => DecidedGrows(name, s, w);
    case Fail(w) => ReleasedFrame(s, w);
    case _ =>
  }

  lemma JobStays(before: State, after: State, job: Job)
    requires JobOk(before.rows, before.stored, job)
    requires Grows(before.stored, after.stored) && SameGrants(before.rows, after.rows)
    ensures JobOk(after.rows, after.stored, job)
  {
  }

  lemma RowStays(before: State, after: State, row: Row)
    requires RowOk(before.stored, row) && Grows(before.stored, after.stored)
    ensures RowOk(after.stored, row)
  {
  }

  // The worker that takes a step, if one does.
  function Actor(step: Step): Option<nat> {
    match step
    case Tick(_) => None
    case Claim(w, _) => Some(w)
    case Load(w) => Some(w)
    case Decide(w) => Some(w)
    case Fail(w) => Some(w)
    case Complete(w) => Some(w)
    case Crash(w) => Some(w)
  }

  lemma OnwardOk(rows: map<nat, Row>, stored: StoredIds, job: Job)
    requires JobOk(rows, stored, job) && job.todo != []
    ensures JobOk(rows, stored, Job(job.todo[1..], 0, None))
  {
  }

  lemma PassedOk(rows: map<nat, Row>, stored: StoredIds, job: Job)
    requires JobOk(rows, stored, job) && job.todo != [] && job.next < |rows[job.todo[0]].grants|
    requires var g := rows[job.todo[0]].grants[job.next]; g.matches ==> Stored(stored, g)
    ensures JobOk(rows, stored, Job(job.todo, job.next + 1, None))
  {
  }

  lemma OwnRelease(s: State, w: nat)
    requires Inv(s) && Busy(s, w) && w in Released(s, w).jobs
    ensures var t := Released(s, w); JobOk(t.rows, t.stored, t.jobs[w])
  {
    var t := Released(s, w);
    ReleasedFrame(s, w);
    assert JobOk(s.rows, s.stored, s.jobs[w]);
    JobStays(s, t, s.jobs[w]);
    OnwardOk(t.rows, t.stored, s.jobs[w]);
  }

  lemma OwnSave(s: State, w: nat, projected: seq<Belief>)
    requires Inv(s) && AtGrant(s, w)
    ensures var t := Saved(s, w, GrantAt(s, w), projected); JobOk(t.rows, t.stored, t.jobs[w])
  {
    var t := Saved(s, w, GrantAt(s, w), projected);
    assert JobOk(s.rows, s.stored, s.jobs[w]);
    JobStays(s, t, s.jobs[w]);
    PassedOk(t.rows, t.stored, s.jobs[w]);
  }

  lemma OwnDecision(name: Naming, s: State, w: nat)
    requires Inv(s) && Can(s, Decide(w)) && w in Decided(name, s, w).jobs
    ensures var t := Decided(name, s, w); JobOk(t.rows, t.stored, t.jobs[w])
  {
    assert JobOk(s.rows, s.stored, s.jobs[w]);
    match OutcomeOf(name, GrantAt(s, w), s.jobs[w].loaded.value)
    case Skip => PassedOk(s.rows, s.stored, s.jobs[w]);
    case Raise => OwnRelease(s, w);
    case Write(projected) => OwnSave(s, w, projected);
  }

  lemma OwnJob(name: Naming, s: State, step: Step)
    requires Inv(s) && Can(s, step) && Actor(step).Some? && Actor(step).value in Next(name, s, step).jobs
    ensures var t := Next(name, s, step); JobOk(t.rows, t.stored, t.jobs[Actor(step).value])
  {
    var w := Actor(step).value;
    var t := Next(name, s, step);
    match step
    case Decide(_) => OwnDecision(name, s, w);
    case Fail(_) => OwnRelease(s, w);
    case Complete(_) =>
      NextGrows(name, s, step);
      assert JobOk(s.rows, s.stored, s.jobs[w]);
      JobStays(s, t, s.jobs[w]);
      OnwardOk(t.rows, t.stored, s.jobs[w]);
    case _ =>
  }

  lemma OtherJobs(name: Naming, s: State, step: Step, w: nat)
    requires Can(s, step) && Actor(step) != Some(w)
    ensures w in Next(name, s, step).jobs <==> w in s.jobs
    ensures w in s.jobs ==> Next(name, s, step).jobs[w] == s.jobs[w]
  {
  }

  lemma RowsAfter(name: Naming, s: State, step: Step, id: nat)
    requires Inv(s) && Can(s, step) && id in s.rows
    ensures id in Next(name, s, step).rows && RowOk(Next(name, s, step).stored, Next(name, s, step).rows[id])
  {
    NextGrows(name, s, step);
    RowStays(s, Next(name, s, step), s.rows[id]);
  }

  lemma NextKeeps(name: Naming, s: State, step: Step)
    requires Inv(s) && Can(s, step)
    ensures Inv(Next(name, s, step))
  {
    var t := Next(name, s, step);
    NextGrows(name, s, step);
    forall id | id in t.rows ensures RowOk(t.stored, t.rows[id]) { RowsAfter(name, s, step, id); }
    forall w | w in t.jobs ensures JobOk(t.rows, t.stored, t.jobs[w]) {
      if Actor(step) == Some(w) {
        OwnJob(name, s, step);
      } else {
        OtherJobs(name, s, step, w);
        JobStays(s, t, s.jobs[w]);
      }
    }
  }

  lemma {:induction false} RanKeeps(name: Naming, s: State, steps: seq<Step>)
    requires Inv(s)
    ensures Inv(Ran(name, s, steps))
    decreases |steps|
  {
    if steps != [] {
      if Can(s, steps[0]) { NextKeeps(name, s, steps[0]); }
      RanKeeps(name, if Can(s, steps[0]) then Next(name, s, steps[0]) else s, steps[1..]);
    }
  }

  /** In every interleaving, a published row has the observation of every matching grant stored. */
  lemma PublishedIsProjected(name: Naming, s: State, steps: seq<Step>, id: nat, j: nat)
    requires Fresh(s) && id in Ran(name, s, steps).rows
    requires var row := Ran(name, s, steps).rows[id];
             row.published && j < |row.grants| && row.grants[j].matches
    ensures var t := Ran(name, s, steps); Stored(t.stored, t.rows[id].grants[j])
  {
    FreshInv(s);
    RanKeeps(name, s, steps);
    assert RowOk(Ran(name, s, steps).stored, Ran(name, s, steps).rows[id]);
  }

  /** Only the worker that holds the lease publishes a row, when it has gone through all its grants. */
  lemma OnlyHolderPublishes(name: Naming, s: State, step: Step, id: nat)
    requires Can(s, step) && id in s.rows && !s.rows[id].published
    ensures id in Next(name, s, step).rows
    ensures Next(name, s, step).rows[id].published <==>
            step.Complete? && Current(s, step.worker) == id && Holds(s.rows[id], step.worker)
  {
  }

  /** A published row never changes again, so it is published at most once. */
  lemma {:induction false} PublishedIsFinal(name: Naming, s: State, steps: seq<Step>, id: nat)
    requires Inv(s) && id in s.rows && s.rows[id].published
    ensures id in Ran(name, s, steps).rows && Ran(name, s, steps).rows[id] == s.rows[id]
    decreases |steps|
  {
    if steps != [] {
      if Can(s, steps[0]) {
        NextKeeps(name, s, steps[0]);
        assert RowOk(s.stored, s.rows[id]);
      }
      PublishedIsFinal(name, if Can(s, steps[0]) then Next(name, s, steps[0]) else s, steps[1..], id);
    }
  }

  /* ---- Projecting again ---- */

  // Everything of the row is stored, and nobody is still looking at an older copy.
  ghost predicate Settled(s: State, id: nat) {
    && id in s.rows && Done(s.stored, s.rows[id].grants, |s.rows[id].grants|)
    && forall w :: AtGrant(s, w) && Current(s, w) == id && s.jobs[w].loaded.Some? && GrantAt(s, w).matches ==>
         GrantAt(s, w).observation.id in s.jobs[w].loaded.value.observations
  }

  lemma SettledStays(name: Naming, s: State, step: Step, id: nat)
    requires Settled(s, id) && Can(s, step)
    ensures Settled(Next(name, s, step), id)
  {
    var t := Next(name, s, step);
    NextGrows(name, s, step);
    forall w | AtGrant(t, w) && Current(t, w) == id && t.jobs[w].loaded.Some? && GrantAt(t, w).matches
      ensures GrantAt(t, w).observation.id in t.jobs[w].loaded.value.observations
    {
      if Actor(step) == Some(w) {
        assert step.Load?;
        assert Stored(s.stored, s.rows[id].grants[s.jobs[w].next]);
      } else {
        OtherJobs(name, s, step, w);
        assert AtGrant(s, w) && Current(s, w) == id;
      }
    }
  }

  // A step taken on a row: by a worker whose current row it is.
  predicate On(s: State, step: Step, id: nat) {
    Actor(step).Some? && Busy(s, Actor(step).value) && Current(s, Actor(step).value) == id
  }

  lemma SettledStep(name: Naming, s: State, step: Step, id: nat)
    requires Settled(s, id) && Can(s, step) && On(s, step, id)
    ensures var t := Next(name, s, step); t.shelves == s.shelves && t.stored == s.stored
  {
  }

  lemma {:induction false} SettledRun(name: Naming, s: State, steps: seq<Step>, id: nat)
    requires Settled(s, id)
    ensures Settled(Ran(name, s, steps), id)
    decreases |steps|
  {
    if steps != [] {
      if Can(s, steps[0]) { SettledStays(name, s, steps[0], id); }
      SettledRun(name, if Can(s, steps[0]) then Next(name, s, steps[0]) else s, steps[1..], id);
    }
  }

  /** Once an event is projected and no copy from before is left, working on it again changes no mind, however late. */
  lemma ProjectingAgainChangesNothing(name: Naming, s: State, steps: seq<Step>, step: Step, id: nat)
    requires Settled(s, id)
    requires Can(Ran(name, s, steps), step) && On(Ran(name, s, steps), step, id)
    ensures var t := Ran(name, s, steps);
            Next(name, t, step).shelves == t.shelves && Next(name, t, step).stored == t.stored
  {
    SettledRun(name, s, steps, id);
    SettledStep(name, Ran(name, s, steps), step, id);
  }
}
