/** Logins in two steps: the record is read before the password is verified, and what follows is written afterwards. */
module LockoutRaces {
  import opened Wrappers
  import opened Lockout

  // The account's record, and what each login under way has read of it.
  datatype Desk = Desk(record: Credentials, seen: map<nat, Credentials>)

  datatype Move = Look(login: nat) | Judge(login: nat, password: nat, at: int)

  predicate Counts(copy: Credentials, password: nat, at: int) {
    password != copy.password && !Locked(copy, at)
  }

  // Count and lock are computed from the copy; the rest of the record is left as it is.
  function Written(record: Credentials, copy: Credentials, password: nat, at: int): Credentials {
    var after := Attempted(copy, password, at).0;
    if Counts(copy, password, at) || Attempted(copy, password, at).1 == Success
    then record.(failed := after.failed, lockedUntil := after.lockedUntil) else record
  }

  function Next(s: Desk, m: Move): Desk {
    match m
    case Look(login) => s.(seen := s.seen[login := s.record])
    case Judge(login, password, at) =>
      if login !in s.seen then s
      else Desk(Written(s.record, s.seen[login], password, at), s.seen - {login})
  }

  function Ran(s: Desk, moves: seq<Move>): Desk
    decreases |moves|
  {
    if moves == [] then s else Ran(Next(s, moves[0]), moves[1..])
  }

  predicate Judges(s: Desk, m: Move) {
    m.Judge? && m.login in s.seen && Counts(s.seen[m.login], m.password, m.at)
  }

  // A login under way whose copy is no longer the record.
  predicate Stale(s: Desk, m: Move) {
    Judges(s, m) && s.seen[m.login] != s.record
  }

  // Wrong passwords judged, and those of them judged by an outdated copy.
  function Judged(s: Desk, moves: seq<Move>): nat
    decreases |moves|
  {
    if moves == [] then 0 else (if Judges(s, moves[0]) then 1 else 0) + Judged(Next(s, moves[0]), moves[1..])
  }

  function StaleJudged(s: Desk, moves: seq<Move>): nat
    decreases |moves|
  {
    if moves == [] then 0 else (if Stale(s, moves[0]) then 1 else 0) + StaleJudged(Next(s, moves[0]), moves[1..])
  }

  predicate SucceedsAt(s: Desk, m: Move) {
    m.Judge? && m.login in s.seen && Attempted(s.seen[m.login], m.password, m.at).1 == Success
  }

  predicate Succeeds(s: Desk, moves: seq<Move>)
    decreases |moves|
  {
    moves != [] && (SucceedsAt(s, moves[0]) || Succeeds(Next(s, moves[0]), moves[1..]))
  }

  // The moments of judging do not go back.
  predicate InOrder(moves: seq<Move>, from: int, until: int)
    decreases |moves|
  {
    moves == [] ||
    (if moves[0].Judge? then from <= moves[0].at <= until && InOrder(moves[1..], moves[0].at, until)
     else InOrder(moves[1..], from, until))
  }

  // A lock is set fifteen minutes ahead of a moment that has passed.
  ghost predicate Sound(c: Credentials, now: int) {
    Reachable(c) && (c.lockedUntil.Some? ==> c.lockedUntil.value <= now + DURATION)
  }

  ghost predicate Inv(s: Desk, now: int) {
    && Sound(s.record, now)
    && forall l :: l in s.seen ==> Reachable(s.seen[l]) && s.seen[l].password == s.record.password
  }

  lemma RoundsLeft(now: int, at: int, end: int)
    requires now <= at <= end
    ensures (end - at) / DURATION <= (end - now) / DURATION
    ensures at + DURATION <= end ==> (end - at - DURATION) / DURATION == (end - at) / DURATION - 1
    ensures at + DURATION > end ==> (end - at) / DURATION == 0
  {
  }

  // However low the record is set by an outdated copy, that gives back no more than five guesses, this one included.
  lemma StaleGivesFive(record: Credentials, copy: Credentials, password: nat, now: int, at: int, end: int)
    requires Sound(record, now) && Reachable(copy) && Counts(copy, password, at) && now <= at <= end
    ensures 1 + Budget(Written(record, copy, password, at), at, end) <= Budget(record, now, end) + THRESHOLD
  {
    RoundsLeft(now, at, end);
    var after := Written(record, copy, password, at);
    assert Budget(after, at, end) + 1 <= THRESHOLD + THRESHOLD * ((end - at) / DURATION);
    if record.lockedUntil.Some? {
      var until := record.lockedUntil.value;
      if until > end {
        RoundsLeft(at, at, end);
      } else if until > now {
        assert (end - until) / DURATION >= (end - at - DURATION) / DURATION;
      }
    }
  }

  lemma TimelyIsAttempt(s: Desk, m: Move)
    requires m.Judge? && m.login in s.seen && s.seen[m.login] == s.record
    ensures Next(s, m).record == Attempted(s.record, m.password, m.at).0
  {
  }

  lemma MoveKeeps(s: Desk, m: Move, now: int)
    requires Inv(s, now) && !SucceedsAt(s, m) && (m.Judge? ==> now <= m.at)
    ensures Inv(Next(s, m), if m.Judge? then m.at else now)
  {
  }

  lemma MoveCosts(s: Desk, m: Move, now: int, end: int)
    requires Inv(s, now) && !SucceedsAt(s, m) && now <= end && (m.Judge? ==> now <= m.at <= end)
    ensures (if Judges(s, m) then 1 else 0) + Budget(Next(s, m).record, if m.Judge? then m.at else now, end)
            <= Budget(s.record, now, end) + if Stale(s, m) then THRESHOLD else 0
  {
    if Stale(s, m) {
      StaleGivesFive(s.record, s.seen[m.login], m.password, now, m.at, end);
    } else if m.Judge? && m.login in s.seen && s.seen[m.login] == s.record {
      TimelyIsAttempt(s, m);
      BudgetShrinks(s.record, m.password, now, m.at, end);
    } else if m.Judge? {
      assert Next(s, m).record == s.record;
      LaterBudget(s.record, now, m.at, end);
    }
  }

  lemma LaterBudget(c: Credentials, now: int, later: int, end: int)
    requires now <= later <= end
    ensures Budget(c, later, end) <= Budget(c, now, end)
  {
    RoundsLeft(now, later, end);
    if c.lockedUntil.Some? && now < c.lockedUntil.value <= later {
      RoundsLeft(c.lockedUntil.value, later, end);
    }
  }

  lemma {:induction false} JudgedWithinBudget(s: Desk, moves: seq<Move>, now: int, end: int)
    requires Inv(s, now) && now <= end && InOrder(moves, now, end) && !Succeeds(s, moves)
    ensures Judged(s, moves) <= Budget(s.record, now, end) + THRESHOLD * StaleJudged(s, moves)
    decreases |moves|
  {
    if moves != [] {
      MoveCosts(s, moves[0], now, end);
      MoveKeeps(s, moves[0], now);
      JudgedWithinBudget(Next(s, moves[0]), moves[1..], if moves[0].Judge? then moves[0].at else now, end);
    }
  }

  /**
   * However logins interleave, in any window without a success the wrong passwords judged exceed the bound for logins
   * one after the other by at most five for each that was judged by an outdated copy.
   */
  lemma InterleavedGuesses(s: Desk, moves: seq<Move>, start: int, length: nat)
    requires Inv(s, start) && InOrder(moves, start, start + length) && !Succeeds(s, moves)
    ensures Judged(s, moves) <= THRESHOLD * (length / DURATION + 1) + THRESHOLD * StaleJudged(s, moves)
  {
    JudgedWithinBudget(s, moves, start, start + length);
  }

  /* ---- With enough logins at once there is no bound ---- */

  function Looks(n: nat): seq<Move> {
    if n == 0 then [] else Looks(n - 1) + [Look(n - 1)]
  }

  function Verdicts(n: nat, wrong: nat, at: int): seq<Move> {
    if n == 0 then [] else [Judge(n - 1, wrong, at)] + Verdicts(n - 1, wrong, at)
  }

  // The first n logins have read the record c.
  ghost predicate AllLooked(s: Desk, n: nat, c: Credentials) {
    forall l :: 0 <= l < n ==> l in s.seen && s.seen[l] == c
  }

  lemma {:induction false} LooksLook(s: Desk, n: nat, rest: seq<Move>) returns (t: Desk)
    ensures t.record == s.record && AllLooked(t, n, s.record)
    ensures Ran(s, Looks(n) + rest) == Ran(t, rest) && Judged(s, Looks(n) + rest) == Judged(t, rest)
    ensures Succeeds(s, Looks(n) + rest) <==> Succeeds(t, rest)
    decreases n
  {
    if n == 0 {
      assert Looks(0) + rest == rest;
      t := s;
    } else {
      var before := LooksLook(s, n - 1, [Look(n - 1)] + rest);
      assert Looks(n) + rest == Looks(n - 1) + ([Look(n - 1)] + rest);
      t := Next(before, Look(n - 1));
      assert ([Look(n - 1)] + rest)[1..] == rest;
    }
  }

  lemma {:induction false} VerdictsJudge(s: Desk, n: nat, c: Credentials, wrong: nat, at: int)
    requires AllLooked(s, n, c) && wrong != c.password && c.failed == 0 && c.lockedUntil.None?
    requires s.record in {c, c.(failed := 1)}
    ensures Judged(s, Verdicts(n, wrong, at)) == n && !Succeeds(s, Verdicts(n, wrong, at))
    ensures Ran(s, Verdicts(n, wrong, at)).record in {c, c.(failed := 1)}
    decreases n
  {
    if n > 0 {
      var m := Judge(n - 1, wrong, at);
      assert Verdicts(n, wrong, at)[1..] == Verdicts(n - 1, wrong, at);
      assert Next(s, m).record == c.(failed := 1);
      VerdictsJudge(Next(s, m), n - 1, c, wrong, at);
    }
  }

  lemma {:induction false} LooksFirst(n: nat)
    ensures forall i :: 0 <= i < |Looks(n)| ==> Looks(n)[i].Look?
  {
    if n > 0 { LooksFirst(n - 1); }
  }

  lemma {:induction false} LooksInOrder(looks: seq<Move>, rest: seq<Move>, at: int)
    requires forall i :: 0 <= i < |looks| ==> looks[i].Look?
    ensures InOrder(looks + rest, at, at) <==> InOrder(rest, at, at)
    decreases |looks|
  {
    if looks == [] {
      assert looks + rest == rest;
    } else {
      assert (looks + rest)[1..] == looks[1..] + rest;
      LooksInOrder(looks[1..], rest, at);
    }
  }

  lemma {:induction false} VerdictsInOrder(k: nat, wrong: nat, at: int)
    ensures InOrder(Verdicts(k, wrong, at), at, at)
  {
    if k > 0 {
      assert Verdicts(k, wrong, at)[1..] == Verdicts(k - 1, wrong, at);
      VerdictsInOrder(k - 1, wrong, at);
    }
  }

  /** Any number of wrong passwords can be judged in one moment, and the record counts at most one of them. */
  lemma NoBoundAtOnce(c: Credentials, n: nat, wrong: nat, at: int) returns (moves: seq<Move>)
    requires wrong != c.password && c.failed == 0 && c.lockedUntil.None?
    ensures InOrder(moves, at, at) && Judged(Desk(c, map[]), moves) == n && !Succeeds(Desk(c, map[]), moves)
    ensures Ran(Desk(c, map[]), moves).record in {c, c.(failed := 1)}
  {
    var t := LooksLook(Desk(c, map[]), n, Verdicts(n, wrong, at));
    VerdictsJudge(t, n, c, wrong, at);
    VerdictsInOrder(n, wrong, at);
    LooksFirst(n);
    LooksInOrder(Looks(n), Verdicts(n, wrong, at), at);
    moves := Looks(n) + Verdicts(n, wrong, at);
  }
}
