/** Login lockout: five wrong passwords lock an account for fifteen minutes. */
module Lockout {
  import opened Wrappers

  const THRESHOLD: nat := 5

  // Fifteen minutes, in microseconds.
  const DURATION: int := 900_000_000

  // A password stands for its hash; verification compares the two.
  datatype Credentials = Credentials(isActive: bool, password: nat, failed: nat, lockedUntil: Option<int>)

  datatype Outcome = Success | Invalid | Disabled | TemporarilyLocked

  predicate Locked(c: Credentials, now: int) {
    c.lockedUntil.Some? && c.lockedUntil.value > now
  }

  // A lapsed lock starts the count over.
  function FailedOnceMore(c: Credentials, now: int): Credentials {
    var failed := if c.lockedUntil.Some? then 1 else c.failed + 1;
    c.(failed := failed, lockedUntil := if failed >= THRESHOLD then Some(now + DURATION) else None)
  }

  function Attempted(c: Credentials, password: nat, now: int): (Credentials, Outcome) {
    if password != c.password then (if Locked(c, now) then c else FailedOnceMore(c, now), Invalid)
    else if !c.isActive then (c, Disabled)
    else if Locked(c, now) then (c, TemporarilyLocked)
    else (c.(failed := 0, lockedUntil := None), Success)
  }

  function PasswordSet(c: Credentials, password: nat): Credentials {
    Credentials(c.isActive, password, 0, None)
  }

  class LoginService {
    var credentials: map<string, Credentials>

    method Login(username: string, password: nat, now: int) returns (outcome: Outcome)
      modifies this
      ensures username !in old(credentials) ==> outcome == Invalid && credentials == old(credentials)
      ensures username in old(credentials) ==>
                var (after, said) := Attempted(old(credentials)[username], password, now);
                outcome == said && credentials == old(credentials)[username := after]
    {
      var known := username in credentials;
      if !known || credentials[username].password != password {
        if known {
          var record := credentials[username];
          if !Locked(record, now) {
            var lapsed := record.lockedUntil.Some?;
            var failed := if lapsed then 1 else record.failed + 1;
            var lockedUntil := if failed >= THRESHOLD then Some(now + DURATION) else None;
            credentials := credentials[username := record.(failed := failed, lockedUntil := lockedUntil)];
          }
        }
        return Invalid;
      }
      var record := credentials[username];
      if !record.isActive { return Disabled; }
      if Locked(record, now) { return TemporarilyLocked; }
      credentials := credentials[username := record.(failed := 0, lockedUntil := None)];
      return Success;
    }

    method SetPassword(username: string, password: nat) returns (ok: bool)
      modifies this
      ensures ok <==> username in old(credentials)
      ensures credentials == if ok then old(credentials)[username := PasswordSet(old(credentials)[username], password)]
                             else old(credentials)
    {
      if username !in credentials { return false; }
      credentials := credentials[username := Credentials(credentials[username].isActive, password, 0, None)];
      return true;
    }
  }

  /* ---- Runs of attempts on one account ---- */

  datatype Attempt = Attempt(password: nat, at: int)

  // A count below the threshold without a lock, or the threshold itself with one.
  ghost predicate Reachable(c: Credentials) {
    if c.lockedUntil.None? then c.failed < THRESHOLD else c.failed == THRESHOLD
  }

  function After(c: Credentials, tries: seq<Attempt>): Credentials
    decreases |tries|
  {
    if tries == [] then c else After(Attempted(c, tries[0].password, tries[0].at).0, tries[1..])
  }

  // Wrong passwords judged while the account was not locked.
  function Judged(c: Credentials, tries: seq<Attempt>): nat
    decreases |tries|
  {
    if tries == [] then 0
    else
      (if tries[0].password != c.password && !Locked(c, tries[0].at) then 1 else 0)
      + Judged(Attempted(c, tries[0].password, tries[0].at).0, tries[1..])
  }

  predicate Succeeds(c: Credentials, tries: seq<Attempt>)
    decreases |tries|
  {
    tries != [] &&
    (Attempted(c, tries[0].password, tries[0].at).1 == Success
     || Succeeds(Attempted(c, tries[0].password, tries[0].at).0, tries[1..]))
  }

  predicate InOrder(tries: seq<Attempt>, from: int, until: int) {
    && (forall i :: 0 <= i < |tries| ==> from <= tries[i].at <= until)
    && (forall i, j :: 0 <= i < j < |tries| ==> tries[i].at <= tries[j].at)
  }

  /** A lock is recorded exactly when the count is at the threshold, in every run. */
  lemma {:induction false} ReachableAlways(c: Credentials, tries: seq<Attempt>)
    requires Reachable(c)
    ensures Reachable(After(c, tries))
    decreases |tries|
  {
    if tries != [] { ReachableAlways(Attempted(c, tries[0].password, tries[0].at).0, tries[1..]); }
  }

  /**
   * While an account is locked no attempt, right or wrong, changes its record: the lock ends when it was set to end.
   */
  lemma {:induction false} LockIsFixed(c: Credentials, tries: seq<Attempt>)
    requires forall i :: 0 <= i < |tries| ==> Locked(c, tries[i].at)
    ensures After(c, tries) == c && Judged(c, tries) == 0 && !Succeeds(c, tries)
    decreases |tries|
  {
    if tries != [] { LockIsFixed(c, tries[1..]); }
  }

  /** So after any attempts made during a lock, the right password is accepted once the lock has ended. */
  lemma LockEnds(c: Credentials, tries: seq<Attempt>, now: int)
    requires c.isActive && c.lockedUntil.Some? && c.lockedUntil.value <= now
    requires forall i :: 0 <= i < |tries| ==> tries[i].at < c.lockedUntil.value
    ensures Attempted(After(c, tries), c.password, now).1 == Success
  {
    LockIsFixed(c, tries);
  }

  // The wrong passwords that can still be judged from a moment to the end of the window.
  function Budget(c: Credentials, now: int, end: int): int
    requires now <= end
  {
    match c.lockedUntil
    case None => THRESHOLD - c.failed + THRESHOLD * ((end - now) / DURATION)
    case Some(until) =>
      if until > end then 0
      else THRESHOLD + THRESHOLD * ((end - (if until > now then until else now)) / DURATION)
  }

  lemma BudgetShrinks(c: Credentials, password: nat, now: int, later: int, end: int)
    requires Reachable(c) && now <= later <= end && Attempted(c, password, later).1 != Success
    ensures var after := Attempted(c, password, later).0;
            var judged := if password != c.password && !Locked(c, later) then 1 else 0;
            && Reachable(after) && after.password == c.password
            && judged + Budget(after, later, end) <= Budget(c, now, end)
  {
  }

  lemma {:induction false} JudgedWithinBudget(c: Credentials, tries: seq<Attempt>, now: int, end: int)
    requires Reachable(c) && now <= end && InOrder(tries, now, end) && !Succeeds(c, tries)
    ensures Judged(c, tries) <= Budget(c, now, end)
    decreases |tries|
  {
    if tries != [] {
      BudgetShrinks(c, tries[0].password, now, tries[0].at, end);
      JudgedWithinBudget(Attempted(c, tries[0].password, tries[0].at).0, tries[1..], tries[0].at, end);
    }
  }

  /**
   * In any window without a successful login, at most five wrong passwords are judged for each fifteen minutes
   * begun: 5 * (floor(length / 15 min) + 1).
   */
  lemma GuessesPerWindow(c: Credentials, tries: seq<Attempt>, start: int, length: nat)
    requires Reachable(c) && InOrder(tries, start, start + length) && !Succeeds(c, tries)
    ensures Judged(c, tries) <= THRESHOLD * (length / DURATION + 1)
  {
    JudgedWithinBudget(c, tries, start, start + length);
  }

  function Guesses(n: nat, password: nat, at: int): seq<Attempt> {
    seq(n, i => Attempt(password, at))
  }

  lemma {:induction false} GuessesJudged(c: Credentials, n: nat, wrong: nat, at: int)
    requires wrong != c.password && c.lockedUntil.None? && c.failed + n == THRESHOLD
    ensures Judged(c, Guesses(n, wrong, at)) == n
    ensures n > 0 ==> After(c, Guesses(n, wrong, at)) == c.(failed := THRESHOLD, lockedUntil := Some(at + DURATION))
    decreases n
  {
    if n > 0 {
      assert Guesses(n, wrong, at)[1..] == Guesses(n - 1, wrong, at);
      if n > 1 { GuessesJudged(FailedOnceMore(c, at), n - 1, wrong, at); } else { assert Guesses(0, wrong, at) == []; }
    }
  }

  function LockedSince(c: Credentials, at: int): Credentials {
    c.(failed := THRESHOLD, lockedUntil := Some(at + DURATION))
  }

  // Five guesses the moment a lock has ended are all judged, and lock the account again.
  lemma WaveJudged(c: Credentials, wrong: nat, at: int)
    requires wrong != c.password && c.lockedUntil == Some(at) && c.failed == THRESHOLD
    ensures Judged(c, Guesses(5, wrong, at)) == 5 && After(c, Guesses(5, wrong, at)) == LockedSince(c, at)
  {
    GuessesJudged(FailedOnceMore(c, at), 4, wrong, at);
    assert Guesses(5, wrong, at)[1..] == Guesses(4, wrong, at);
  }

  // Five guesses at the start and five more whenever a lock ends.
  function Waves(n: nat, wrong: nat, at: int): seq<Attempt> {
    (if n == 0 then [] else Waves(n - 1, wrong, at)) + Guesses(5, wrong, at + n * DURATION)
  }

  lemma {:induction false} WavesInOrder(n: nat, wrong: nat, at: int)
    ensures InOrder(Waves(n, wrong, at), at, at + n * DURATION)
    decreases n
  {
    if n > 0 { WavesInOrder(n - 1, wrong, at); }
  }

  lemma {:induction false} WavesJudged(c: Credentials, n: nat, wrong: nat, at: int)
    requires wrong != c.password && c.failed == 0 && c.lockedUntil.None?
    ensures Judged(c, Waves(n, wrong, at)) == THRESHOLD * (n + 1)
    ensures After(c, Waves(n, wrong, at)) == LockedSince(c, at + n * DURATION)
    decreases n
  {
    var last := Guesses(5, wrong, at + n * DURATION);
    if n == 0 {
      GuessesJudged(c, 5, wrong, at);
      assert [] + last == last;
    } else {
      WavesJudged(c, n - 1, wrong, at);
      WaveJudged(LockedSince(c, at + (n - 1) * DURATION), wrong, at + n * DURATION);
      JudgedConcat(c, Waves(n - 1, wrong, at), last);
    }
  }

  lemma {:induction false} NeverSucceeds(c: Credentials, tries: seq<Attempt>)
    requires forall i :: 0 <= i < |tries| ==> tries[i].password != c.password
    ensures !Succeeds(c, tries)
    decreases |tries|
  {
    if tries != [] { NeverSucceeds(Attempted(c, tries[0].password, tries[0].at).0, tries[1..]); }
  }

  lemma {:induction false} WavesWrong(n: nat, wrong: nat, at: int)
    ensures forall i :: 0 <= i < |Waves(n, wrong, at)| ==> Waves(n, wrong, at)[i].password == wrong
    decreases n
  {
    if n > 0 { WavesWrong(n - 1, wrong, at); }
  }

  /** The bound is reached in a window of any length: five guesses at once, and five more whenever a lock ends. */
  lemma BoundIsReached(c: Credentials, wrong: nat, start: int, length: nat)
    requires wrong != c.password && c.failed == 0 && c.lockedUntil.None?
    ensures exists tries :: InOrder(tries, start, start + length) && !Succeeds(c, tries)
                            && Judged(c, tries) == THRESHOLD * (length / DURATION + 1)
  {
    var n := length / DURATION;
    var tries := Waves(n, wrong, start);
    WavesInOrder(n, wrong, start);
    WavesJudged(c, n, wrong, start);
    WavesWrong(n, wrong, start);
    NeverSucceeds(c, tries);
    assert n * DURATION <= length;
    assert InOrder(tries, start, start + length);
  }

  lemma {:induction false} JudgedConcat(c: Credentials, a: seq<Attempt>, b: seq<Attempt>)
    ensures Judged(c, a + b) == Judged(c, a) + Judged(After(c, a), b)
    ensures After(c, a + b) == After(After(c, a), b)
    decreases |a|
  {
    if a == [] {
      assert a + b == b;
    } else {
      assert (a + b)[0] == a[0] && (a + b)[1..] == a[1..] + b;
      JudgedConcat(Attempted(c, a[0].password, a[0].at).0, a[1..], b);
    }
  }

  /** The fifth wrong password in a row locks the account for fifteen minutes of sixty seconds. */
  lemma FifthFailureLocks(c: Credentials, wrong: nat, now: int)
    requires wrong != c.password && c.lockedUntil.None?
    ensures var after := Attempted(c, wrong, now).0;
            && after.failed == c.failed + 1
            && (c.failed < 4 ==> after.lockedUntil.None?)
            && (c.failed == 4 ==> after.lockedUntil == Some(now + 15 * 60 * 1_000_000))
  {
  }

  /**
   * A wrong password is always answered alike; a right one is accepted exactly if the account is active and not locked
   * any more, an inactive account is reported before a lock, and only acceptance changes the record.
   */
  lemma RightPasswordDecides(c: Credentials, password: nat, now: int)
    ensures var (after, said) := Attempted(c, password, now);
            && (said == Invalid <==> password != c.password)
            && (said == Disabled <==> password == c.password && !c.isActive)
            && (said == Success <==>
                  password == c.password && c.isActive && (c.lockedUntil.None? || c.lockedUntil.value <= now))
            && (said == Success ==> after == c.(failed := 0, lockedUntil := None))
            && (said == Disabled || said == TemporarilyLocked ==> after == c)
  {
  }
}
