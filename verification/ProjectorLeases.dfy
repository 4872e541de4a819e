/** What a lease excludes and for how long, and when a released row comes back. */
module ProjectorLeases {
  import opened Wrappers
  import opened Beliefs
  import opened Projector
  import opened ProjectorTheorems

  // A claim is granted that takes the row.
  predicate Takes(s: State, step: Step, id: nat) {
    step.Claim? && Can(s, step) && id in step.ids
  }

  // The worker completes its work on the row, or fails at it.
  predicate LetsGo(name: Naming, s: State, step: Step, worker: nat, id: nat) {
    && Can(s, step) && Actor(step) == Some(worker) && On(s, step, id)
    && (step.Complete? || step.Fail?
        || (step.Decide? && OutcomeOf(name, GrantAt(s, worker), s.jobs[worker].loaded.value).Raise?))
  }

  function Taken(name: Naming, s: State, step: Step): State {
    if Can(s, step) then Next(name, s, step) else s
  }

  // Up to a moment, no claim takes the row, unless its holder lets go of it first.
  ghost predicate HeldUntil(name: Naming, s: State, steps: seq<Step>, worker: nat, id: nat, moment: nat)
    decreases |steps|
  {
    steps == [] || LetsGo(name, s, steps[0], worker, id)
    || (!(Takes(s, steps[0], id) && s.now <= moment)
        && (Takes(s, steps[0], id) || HeldUntil(name, Taken(name, s, steps[0]), steps[1..], worker, id, moment)))
  }

  lemma OthersLeaveRow(name: Naming, s: State, step: Step, worker: nat, id: nat)
    requires id in s.rows && Holds(s.rows[id], worker) && Can(s, step) && !Takes(s, step, id)
    requires !LetsGo(name, s, step, worker, id)
    ensures id in Next(name, s, step).rows && Next(name, s, step).rows[id] == s.rows[id]
    ensures s.now <= Next(name, s, step).now
  {
  }

  lemma {:induction false} LeaseHolds(name: Naming, s: State, steps: seq<Step>, worker: nat, id: nat, at: nat)
    requires id in s.rows && s.rows[id].lease == Some(Lease(worker, at))
    ensures HeldUntil(name, s, steps, worker, id, at + 300)
    decreases |steps|
  {
    if steps != [] && !LetsGo(name, s, steps[0], worker, id) && !Takes(s, steps[0], id) {
      if Can(s, steps[0]) { OthersLeaveRow(name, s, steps[0], worker, id); }
      LeaseHolds(name, Taken(name, s, steps[0]), steps[1..], worker, id, at);
    }
  }

  /**
   * After a worker claims a row, in any run no claim of anybody takes it for 300 seconds, unless its holder completes
   * it or fails at it before.
   */
  lemma LeaseExcludes(name: Naming, s: State, worker: nat, ids: seq<nat>, id: nat, steps: seq<Step>)
    requires Can(s, Step.Claim(worker, ids)) && id in ids
    ensures HeldUntil(name, Next(name, s, Step.Claim(worker, ids)), steps, worker, id, s.now + 300)
  {
    LeaseHolds(name, Next(name, s, Step.Claim(worker, ids)), steps, worker, id, s.now);
  }

  /* ---- A crashed worker's row ---- */

  // No claim of the run takes the row.
  ghost predicate NobodyTakes(name: Naming, s: State, steps: seq<Step>, id: nat)
    decreases |steps|
  {
    steps == [] || (!Takes(s, steps[0], id) && NobodyTakes(name, Taken(name, s, steps[0]), steps[1..], id))
  }

  // The worker is not at work on the row, nor going to be.
  predicate Dropped(s: State, worker: nat, id: nat) {
    worker in s.jobs ==> id !in s.jobs[worker].todo
  }

  lemma DroppedStays(name: Naming, s: State, step: Step, worker: nat, id: nat)
    requires Dropped(s, worker, id) && Can(s, step) && !Takes(s, step, id)
    ensures Dropped(Next(name, s, step), worker, id)
  {
  }

  lemma {:induction false} CrashedRowStays(name: Naming, s: State, steps: seq<Step>, worker: nat, id: nat)
    requires id in s.rows && Holds(s.rows[id], worker) && Dropped(s, worker, id) && NobodyTakes(name, s, steps, id)
    ensures var t := Ran(name, s, steps); id in t.rows && t.rows[id] == s.rows[id]
    decreases |steps|
  {
    if steps != [] {
      if Can(s, steps[0]) {
        assert !LetsGo(name, s, steps[0], worker, id);
        OthersLeaveRow(name, s, steps[0], worker, id);
        DroppedStays(name, s, steps[0], worker, id);
      }
      CrashedRowStays(name, Taken(name, s, steps[0]), steps[1..], worker, id);
    }
  }

  /**
   * If the worker crashes, then whatever others do, as long as nobody has taken the row, a worker with nothing left to
   * do can claim it if and only if more than 300 seconds have passed since it was claimed.
   */
  lemma CrashedRowReturns(name: Naming, s: State, worker: nat, ids: seq<nat>, id: nat, steps: seq<Step>, other: nat)
    requires Can(s, Step.Claim(worker, ids)) && id in ids
    requires var crashed := Next(name, Next(name, s, Step.Claim(worker, ids)), Crash(worker));
             NobodyTakes(name, crashed, steps, id)
    ensures var crashed := Next(name, Next(name, s, Step.Claim(worker, ids)), Crash(worker));
            var t := Ran(name, crashed, steps);
            (other in t.jobs ==> t.jobs[other].todo == []) ==>
              (Can(t, Step.Claim(other, [id])) <==> t.now > s.now + 300)
  {
    var crashed := Next(name, Next(name, s, Step.Claim(worker, ids)), Crash(worker));
    CrashedRowStays(name, crashed, steps, worker, id);
    ClockRuns(name, crashed, steps);
    var t := Ran(name, crashed, steps);
    if other in t.jobs ==> t.jobs[other].todo == [] { OneRowClaim(t, other, id); }
  }

  lemma {:induction false} ClockRuns(name: Naming, s: State, steps: seq<Step>)
    ensures s.now <= Ran(name, s, steps).now
    decreases |steps|
  {
    if steps != [] {
      ClockRuns(name, Taken(name, s, steps[0]), steps[1..]);
    }
  }

  lemma OneRowClaim(s: State, worker: nat, id: nat)
    requires worker in s.jobs ==> s.jobs[worker].todo == []
    ensures Can(s, Step.Claim(worker, [id])) <==>
            && id in s.rows && !s.rows[id].published && s.rows[id].availableAt <= s.now
            && (s.rows[id].lease.None? || s.rows[id].lease.value.at + 300 < s.now)
  {
    assert [id][0] == id;
  }

  /* ---- Back-off ---- */

  // The seconds a row waits after its first failures; from the tenth on it is five minutes.
  const WAITS: seq<nat> := [1, 2, 4, 8, 16, 32, 64, 128, 256]

  function Wait(attempts: nat): nat {
    if attempts < |WAITS| then WAITS[attempts] else 300
  }

  lemma {:induction false} LongPower(n: nat)
    requires n >= 9
    ensures Power(n) >= 300
  {
    if n == 9 {
      assert Power(9) == 2 * Power(8) && Power(8) == 2 * Power(7) && Power(7) == 2 * Power(6);
      assert Power(6) == 2 * Power(5) && Power(5) == 2 * Power(4) && Power(4) == 2 * Power(3);
      assert Power(3) == 2 * Power(2) && Power(2) == 2 * Power(1) && Power(1) == 2 * Power(0);
    } else {
      LongPower(n - 1);
    }
  }

  lemma DelayIsWait(attempts: nat)
    ensures Delay(attempts) == Wait(attempts)
  {
    assert Power(1) == 2 * Power(0) && Power(2) == 2 * Power(1) && Power(3) == 2 * Power(2) && Power(4) == 2 * Power(3);
    assert Power(5) == 2 * Power(4) && Power(6) == 2 * Power(5) && Power(7) == 2 * Power(6) && Power(8) == 2 * Power(7);
    if attempts >= 9 { LongPower(attempts); }
  }

  // Before a moment no claim takes the row.
  ghost predicate FreeFrom(name: Naming, s: State, steps: seq<Step>, id: nat, moment: nat)
    decreases |steps|
  {
    steps == [] || (!(Takes(s, steps[0], id) && s.now < moment)
                    && (Takes(s, steps[0], id) || FreeFrom(name, Taken(name, s, steps[0]), steps[1..], id, moment)))
  }

  lemma UnheldRowStays(name: Naming, s: State, step: Step, id: nat)
    requires id in s.rows && s.rows[id].lease.None? && Can(s, step) && !Takes(s, step, id)
    ensures id in Next(name, s, step).rows && Next(name, s, step).rows[id] == s.rows[id]
  {
  }

  lemma {:induction false} WaitingRow(name: Naming, s: State, steps: seq<Step>, id: nat)
    requires id in s.rows && s.rows[id].lease.None?
    ensures FreeFrom(name, s, steps, id, s.rows[id].availableAt)
    ensures NobodyTakes(name, s, steps, id) ==>
              id in Ran(name, s, steps).rows && Ran(name, s, steps).rows[id] == s.rows[id]
    decreases |steps|
  {
    if steps != [] && !Takes(s, steps[0], id) {
      if Can(s, steps[0]) { UnheldRowStays(name, s, steps[0], id); }
      WaitingRow(name, Taken(name, s, steps[0]), steps[1..], id);
    }
  }

  // The holder of a row fails at it.
  predicate FailsAt(name: Naming, s: State, step: Step, id: nat) {
    LetsGo(name, s, step, if Actor(step).Some? then Actor(step).value else 0, id) && !step.Complete?
    && Holds(s.rows[id], Actor(step).value)
  }

  /**
   * After its holder fails at a row for the (n+1)-st time, n at most thirty, in any run no claim takes the row before
   * 2^n seconds, at most 300, are over. After that a worker with nothing left to do can claim it, if nobody has.
   */
  lemma FailedRowWaits(name: Naming, s: State, step: Step, id: nat, steps: seq<Step>, other: nat)
    requires FailsAt(name, s, step, id) && s.rows[id].attempts <= 30 && !s.rows[id].published
    ensures var t := Next(name, s, step);
            var u := Ran(name, t, steps);
            && id in t.rows && t.rows[id].attempts == s.rows[id].attempts + 1
            && FreeFrom(name, t, steps, id, s.now + Wait(s.rows[id].attempts))
            && (NobodyTakes(name, t, steps, id) && (other in u.jobs ==> u.jobs[other].todo == []) ==>
                  (Can(u, Step.Claim(other, [id])) <==> u.now >= s.now + Wait(s.rows[id].attempts)))
  {
    var t := Next(name, s, step);
    DelayIsWait(s.rows[id].attempts);
    assert t == Released(s, Actor(step).value);
    WaitingRow(name, t, steps, id);
    if other in Ran(name, t, steps).jobs ==> Ran(name, t, steps).jobs[other].todo == [] {
      OneRowClaim(Ran(name, t, steps), other, id);
    }
  }

  /** The thirty-second failure brings the worker down, and the row stays claimed until the lease runs out. */
  lemma LastFailureCrashes(name: Naming, s: State, step: Step, id: nat)
    requires FailsAt(name, s, step, id) && s.rows[id].attempts > 30
    ensures Next(name, s, step) == Next(name, s, Crash(Actor(step).value))
  {
  }
}
