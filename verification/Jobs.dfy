/** Resumable jobs: the locked sections of the manager, and their interleavings. */
module Jobs {
  import opened Wrappers

  datatype Status = Queued | Running | Completed | Failed | Cancelled

  datatype Record = Record(
    status: Status, progress: real, result: Option<int>, error: Option<string>,
    attempt: nat, maxAttempts: nat, checkpoint: int, cancellationRequested: bool)

  // How the runner, outside the lock, came back.
  datatype Outcome = Returned(result: int) | RaisedCancelled | RaisedError(message: string)

  function Started(r: Record): Record {
    r.(status := Running, progress := if r.progress < 0.01 then 0.01 else r.progress, cancellationRequested := false)
  }

  function Finished(current: Record, outcome: Outcome): Record {
    match outcome
    case Returned(result) =>
      if current.cancellationRequested || current.status == Cancelled then
        current.(status := Cancelled, result := None)
      else current.(status := Completed, progress := 1.0, result := Some(result))
    case RaisedCancelled => current.(status := Cancelled)
    case RaisedError(message) => current.(status := Failed, error := Some(message))
  }

  predicate IsTerminal(r: Record) {
    r.status == Completed || r.status == Failed || r.status == Cancelled
  }

  predicate CancelPending(r: Record) {
    r.cancellationRequested || r.status == Cancelled
  }

  predicate SameBookkeeping(before: Record, after: Record) {
    && after.attempt == before.attempt && after.maxAttempts == before.maxAttempts
    && after.checkpoint == before.checkpoint && after.cancellationRequested == before.cancellationRequested
  }

  predicate CanCheckpoint(r: Record, progress: real) {
    r.status == Running && 0.0 <= progress < 1.0
  }

  function Checkpointed(r: Record, value: int, progress: real): Record {
    r.(checkpoint := value, progress := progress)
  }

  predicate CanCancel(r: Record) {
    r.status != Completed && r.status != Failed
  }

  function CancelledOf(r: Record): Record {
    r.(status := Cancelled, cancellationRequested := true)
  }

  predicate CanRetry(r: Record) {
    (r.status == Failed || r.status == Cancelled) && r.attempt < r.maxAttempts
  }

  function Retried(r: Record): Record {
    r.(status := Queued, result := None, error := None, attempt := r.attempt + 1, cancellationRequested := false)
  }

  datatype JobError =
    | UnknownJob | BadLimit | AlreadyRunning | NoRunner | NotRunning | BadProgress | Terminal | NotRetryable

  datatype Begun = Begun(started: bool, record: Record)

  /** The manager's locked sections; running a job is three of them with the runner in between. */
  class JobManager {
    var records: map<nat, Record>
    var runners: set<nat>

    ghost predicate Valid()
      reads this
    {
      forall id :: id in records ==> 1 <= records[id].attempt <= records[id].maxAttempts
    }

    constructor ()
      ensures Valid() && records == map[] && runners == {}
    {
      records, runners := map[], {};
    }

    method CreateResumable(id: nat, maxAttempts: int) returns (r: Result<Record, JobError>)
      requires Valid()
      modifies this
      ensures Valid() && (r.Ok? <==> maxAttempts >= 1)
      ensures r.Err? ==> records == old(records) && runners == old(runners)
      ensures r.Ok? ==> runners == old(runners) + {id} && r.value ==
                        if id in old(records) then old(records)[id]
                        else Record(Queued, 0.0, None, None, 1, maxAttempts, 0, false)
      ensures r.Ok? ==> records == old(records)[id := r.value]
    {
      if maxAttempts < 1 { return Err(BadLimit); }
      runners := runners + {id};
      if id !in records { records := records[id := Record(Queued, 0.0, None, None, 1, maxAttempts, 0, false)]; }
      return Ok(records[id]);
    }

    // The first section of a run. A missing runner is noticed after the job was marked as running.
    method Begin(id: nat) returns (r: Result<Begun, JobError>)
      requires Valid()
      modifies `records
      ensures Valid()
      ensures id !in old(records) ==> r == Err(UnknownJob)
      ensures id in old(records) ==>
                var before := old(records)[id];
                r == match before.status
                     case Running => Err(AlreadyRunning)
                     case Queued => if id in runners then Ok(Begun(true, Started(before))) else Err(NoRunner)
                     case _ => Ok(Begun(false, before))
      ensures records == if id in old(records) && old(records)[id].status == Queued
                         then old(records)[id := Started(old(records)[id])] else old(records)
    {
      if id !in records { return Err(UnknownJob); }
      var record := records[id];
      match record.status
      case Running => return Err(AlreadyRunning);
      case Queued =>
        records := records[id := Started(record)];
        if id !in runners { return Err(NoRunner); }
        return Ok(Begun(true, records[id]));
      case _ => return Ok(Begun(false, record));
    }

    // The second section: the finished record is computed from the record as it is then, but not yet stored.
    // It is terminal, completed only by a returning runner whose job was not cancelled meanwhile, and keeps the
    // bookkeeping.
    method Conclude(id: nat, outcome: Outcome) returns (finished: Record)
      requires Valid() && id in records
      ensures finished == Finished(records[id], outcome)
      ensures IsTerminal(finished) && SameBookkeeping(records[id], finished)
      ensures finished.status == Completed <==> outcome.Returned? && !CancelPending(records[id])
      ensures finished.status == Completed ==> finished.result == Some(outcome.result) && finished.progress == 1.0
      ensures finished.status == Failed <==> outcome.RaisedError?
    {
      var current := records[id];
      match outcome
      case Returned(result) =>
        if current.cancellationRequested || current.status == Cancelled {
          return current.(status := Cancelled, result := None);
        }
        return current.(status := Completed, progress := 1.0, result := Some(result));
      case RaisedCancelled => return current.(status := Cancelled);
      case RaisedError(message) => return current.(status := Failed, error := Some(message));
    }

    // The third section.
    method StoreFinished(id: nat, finished: Record)
      requires Valid() && id in records && 1 <= finished.attempt <= finished.maxAttempts
      modifies `records
      ensures Valid() && records == old(records)[id := finished]
    {
      records := records[id := finished];
    }

    method Checkpoint(id: nat, value: int, progress: real) returns (r: Result<Record, JobError>)
      requires Valid()
      modifies `records
      ensures Valid() && (r.Ok? <==> id in old(records) && CanCheckpoint(old(records)[id], progress))
      ensures r.Ok? ==> r.value == Checkpointed(old(records)[id], value, progress)
      ensures records == if r.Ok? then old(records)[id := r.value] else old(records)
    {
      if !(0.0 <= progress < 1.0) { return Err(BadProgress); }
      if id !in records { return Err(UnknownJob); }
      if records[id].status != Running { return Err(NotRunning); }
      records := records[id := records[id].(checkpoint := value, progress := progress)];
      return Ok(records[id]);
    }

    method Cancel(id: nat) returns (r: Result<Record, JobError>)
      requires Valid()
      modifies `records
      ensures Valid() && (r.Ok? <==> id in old(records) && CanCancel(old(records)[id]))
      ensures r.Ok? ==> r.value == CancelledOf(old(records)[id])
      ensures records == if r.Ok? then old(records)[id := r.value] else old(records)
    {
      if id !in records { return Err(UnknownJob); }
      if records[id].status == Completed || records[id].status == Failed { return Err(Terminal); }
      records := records[id := records[id].(status := Cancelled, cancellationRequested := true)];
      return Ok(records[id]);
    }

    method Retry(id: nat) returns (r: Result<Record, JobError>)
      requires Valid()
      modifies `records
      ensures Valid() && (r.Ok? <==> id in old(records) && CanRetry(old(records)[id]))
      ensures r.Ok? ==> r.value == Retried(old(records)[id])
      ensures records == if r.Ok? then old(records)[id := r.value] else old(records)
    {
      if id !in records { return Err(UnknownJob); }
      var record := records[id];
      if record.status != Failed && record.status != Cancelled { return Err(NotRetryable); }
      if record.attempt >= record.maxAttempts { return Err(NotRetryable); }
      records := records[id := record.(
        status := Queued, result := None, error := None, attempt := record.attempt + 1,
        cancellationRequested := false)];
      return Ok(records[id]);
    }
  }

  /* ---- Interleavings of the sections, for one job; jobs share nothing but the lock ---- */

  datatype Phase = InRunner | Holding(finished: Record)

  datatype State = State(record: Record, threads: map<nat, Phase>)

  datatype Section =
    | Start(thread: nat, attached: bool)
    | Compute(thread: nat, outcome: Outcome)
    | Store(thread: nat)
    | SaveProgress(value: int, progress: real)
    | RequestCancel
    | RequestRetry

  predicate Can(s: State, x: Section) {
    match x
    case Start(t, _) => s.record.status == Queued && t !in s.threads
    case Compute(t, _) => t in s.threads && s.threads[t].InRunner?
    case Store(t) => t in s.threads && s.threads[t].Holding?
    case SaveProgress(_, progress) => CanCheckpoint(s.record, progress)
    case RequestCancel => CanCancel(s.record)
    case RequestRetry => CanRetry(s.record)
  }

  function Next(s: State, x: Section): State
    requires Can(s, x)
  {
    match x
    case Start(t, attached) => State(Started(s.record), if attached then s.threads[t := InRunner] else s.threads)
    case Compute(t, outcome) => s.(threads := s.threads[t := Holding(Finished(s.record, outcome))])
    case Store(t) => State(s.threads[t].finished, s.threads - {t})
    case SaveProgress(value, progress) => s.(record := Checkpointed(s.record, value, progress))
    case RequestCancel => s.(record := CancelledOf(s.record))
    case RequestRetry => s.(record := Retried(s.record))
  }

  function Step(s: State, x: Section): State {
    if Can(s, x) then Next(s, x) else s
  }

  function Ran(s: State, xs: seq<Section>): State
    decreases |xs|
  {
    if xs == [] then s else Ran(Step(s, xs[0]), xs[1..])
  }

  function Starts(s: State, xs: seq<Section>): nat
    decreases |xs|
  {
    if xs == [] then 0 else (if xs[0].Start? && Can(s, xs[0]) then 1 else 0) + Starts(Step(s, xs[0]), xs[1..])
  }

  function Retries(s: State, xs: seq<Section>): nat
    decreases |xs|
  {
    if xs == [] then 0 else (if xs[0].RequestRetry? && Can(s, xs[0]) then 1 else 0) + Retries(Step(s, xs[0]), xs[1..])
  }

  ghost predicate Within(r: Record, limit: nat) {
    1 <= r.attempt <= r.maxAttempts == limit
  }

  ghost predicate AllWithin(s: State, limit: nat) {
    && Within(s.record, limit)
    && forall t :: t in s.threads && s.threads[t].Holding? ==> Within(s.threads[t].finished, limit)
  }

  /** In every interleaving the attempt stays between one and the limit. */
  lemma {:induction false} AttemptsBounded(s: State, xs: seq<Section>, limit: nat)
    requires AllWithin(s, limit)
    ensures AllWithin(Ran(s, xs), limit)
    decreases |xs|
  {
    if xs != [] { AttemptsBounded(Step(s, xs[0]), xs[1..], limit); }
  }

  // A queued job is a start not yet taken.
  function Waiting(r: Record): nat {
    if r.status == Queued then 1 else 0
  }

  // A finished record is never a queued one.
  ghost predicate NoneRequeues(s: State) {
    forall t :: t in s.threads && s.threads[t].Holding? ==> s.threads[t].finished.status != Queued
  }

  // Queueings that end without a start: by a store over them, or a cancellation.
  function Lost(s: State, xs: seq<Section>): nat
    decreases |xs|
  {
    if xs == [] then 0
    else
      (if (xs[0].Store? || xs[0].RequestCancel?) && Can(s, xs[0]) then Waiting(s.record) else 0)
      + Lost(Step(s, xs[0]), xs[1..])
  }

  /** The exact count: the initial queueing and each retry end in a start, are lost, or are still waiting. */
  lemma {:induction false} StartsExact(s: State, xs: seq<Section>)
    requires NoneRequeues(s)
    ensures NoneRequeues(Ran(s, xs))
    ensures Starts(s, xs) + Lost(s, xs) + Waiting(Ran(s, xs).record) == Waiting(s.record) + Retries(s, xs)
    decreases |xs|
  {
    if xs != [] { StartsExact(Step(s, xs[0]), xs[1..]); }
  }

  /** So in every interleaving each start uses up the initial queueing or a successful retry. */
  lemma StartsNeedRetries(s: State, xs: seq<Section>)
    requires NoneRequeues(s)
    ensures Starts(s, xs) + Waiting(Ran(s, xs).record) <= Waiting(s.record) + Retries(s, xs)
  {
    StartsExact(s, xs);
  }

  /* ---- What a completed job says ---- */

  // The job is completed with a value, or a thread is about to store it so.
  ghost predicate Promised(s: State, value: int) {
    || (s.record.status == Completed && s.record.result == Some(value))
    || exists t :: t in s.threads && s.threads[t].Holding? && Promises(s.threads[t].finished, value)
  }

  ghost predicate Promises(r: Record, value: int) {
    r.status == Completed && r.result == Some(value)
  }

  // Somewhere in the run a runner returned the value while no cancellation was pending.
  ghost predicate ReturnedFreely(s: State, xs: seq<Section>, value: int)
    decreases |xs|
  {
    xs != [] &&
    (|| (xs[0].Compute? && Can(s, xs[0]) && xs[0].outcome == Returned(value) && !CancelPending(s.record))
     || ReturnedFreely(Step(s, xs[0]), xs[1..], value))
  }

  /**
   * A job can only end up completed with a value that some runner returned during the run, at a moment when no
   * cancellation was pending.
   */
  lemma {:induction false} CompletedWasReturned(s: State, xs: seq<Section>, value: int)
    requires !Promised(s, value) && Promised(Ran(s, xs), value)
    ensures ReturnedFreely(s, xs, value)
    decreases |xs|
  {
    if xs != [] {
      var t := Step(s, xs[0]);
      if Promised(t, value) {
        OnlyComputingPromises(s, xs[0], value);
      } else {
        CompletedWasReturned(t, xs[1..], value);
      }
    }
  }

  lemma OnlyComputingPromises(s: State, x: Section, value: int)
    requires !Promised(s, value) && Promised(Step(s, x), value)
    ensures x.Compute? && Can(s, x) && x.outcome == Returned(value) && !CancelPending(s.record)
  {
  }

  // At some point of the run the record is another one.
  ghost predicate Changes(s: State, xs: seq<Section>, r: Record)
    decreases |xs|
  {
    s.record != r || (xs != [] && Changes(Step(s, xs[0]), xs[1..], r))
  }

  // Some section of the run stores another record.
  ghost predicate Overwrites(s: State, xs: seq<Section>, r: Record)
    decreases |xs|
  {
    xs != [] &&
    (|| (xs[0].Store? && Can(s, xs[0]) && s.threads[xs[0].thread].finished != r)
     || Overwrites(Step(s, xs[0]), xs[1..], r))
  }

  lemma CompletedStep(s: State, x: Section)
    requires s.record.status == Completed
    ensures Step(s, x).record != s.record ==> x.Store? && Can(s, x)
    ensures Step(s, x).threads.Keys <= s.threads.Keys
  {
  }

  /**
   * Completed is not final: a completed record changes later if and only if some thread stores a different one, and
   * that thread is still in its runner, or holds its record, when the job is completed.
   */
  lemma {:induction false} CompletedChangesIff(s: State, xs: seq<Section>)
    requires s.record.status == Completed
    ensures Changes(s, xs, s.record) <==> Overwrites(s, xs, s.record)
    ensures Changes(s, xs, s.record) ==> exists t :: t in s.threads && StoresLater(s, xs, t)
    decreases |xs|
  {
    if xs != [] {
      var next := Step(s, xs[0]);
      CompletedStep(s, xs[0]);
      if next.record == s.record {
        CompletedChangesIff(next, xs[1..]);
        if Changes(s, xs, s.record) {
          var t :| t in next.threads && StoresLater(next, xs[1..], t);
          assert t in s.threads && StoresLater(s, xs, t);
        }
      } else {
        assert StoresLater(s, xs, xs[0].thread);
      }
    }
  }

  // A second start after a cancellation completes the job; then the first runner fails, and stores at once.
  function LateFailure(): seq<Section> {
    [Start(0, true), RequestCancel, RequestRetry, Start(1, true), Compute(1, Returned(5)), Store(1)]
  }

  lemma {:induction false} RanFront(s: State, xs: seq<Section>)
    requires xs != []
    ensures Ran(s, xs) == Step(Ran(s, xs[..|xs| - 1]), xs[|xs| - 1])
    decreases |xs|
  {
    if |xs| == 1 {
      assert xs[1..] == [] && xs[..0] == [];
    } else {
      assert xs[1..][..|xs| - 2] == xs[..|xs| - 1][1..];
      RanFront(Step(s, xs[0]), xs[1..]);
    }
  }

  /** A concrete run in which every finished record is stored at once, and a completed job ends up failed. */
  lemma CompletedThenFailed()
    ensures var done := Ran(FIRST, LateFailure());
            && done.record.status == Completed
            && StoredAtOnce(LateFailure() + [Compute(0, RaisedError("lost")), Store(0)])
            && Ran(done, [Compute(0, RaisedError("lost")), Store(0)]).record.status == Failed
  {
    var xs := LateFailure();
    var a := Step(FIRST, xs[0]);
    var b := Step(a, xs[1]);
    var c := Step(b, xs[2]);
    var d := Step(c, xs[3]);
    var e := Step(d, xs[4]);
    var done := Step(e, xs[5]);
    RanFront(FIRST, xs);
    RanFront(FIRST, xs[..5]);
    RanFront(FIRST, xs[..4]);
    RanFront(FIRST, xs[..3]);
    RanFront(FIRST, xs[..2]);
    RanFront(FIRST, xs[..1]);
    assert xs[..5][..4] == xs[..4] && xs[..4][..3] == xs[..3] && xs[..3][..2] == xs[..2] && xs[..2][..1] == xs[..1];
    assert xs[..1][..0] == [];
    var last: seq<Section> := [Compute(0, RaisedError("lost")), Store(0)];
    RanFront(done, last);
    RanFront(done, last[..1]);
    assert last[..1][..0] == [];
  }

  /* ---- When the attempt goes down ---- */

  ghost predicate Current(s: State) {
    forall t :: t in s.threads && s.threads[t].Holding? ==> s.threads[t].finished.attempt == s.record.attempt
  }

  ghost predicate Behind(s: State) {
    forall t :: t in s.threads && s.threads[t].Holding? ==> s.threads[t].finished.attempt <= s.record.attempt
  }

  // Some section of the run lowers the attempt.
  ghost predicate Lowers(s: State, xs: seq<Section>)
    decreases |xs|
  {
    xs != [] && (Step(s, xs[0]).record.attempt < s.record.attempt || Lowers(Step(s, xs[0]), xs[1..]))
  }

  predicate StoresLater(s: State, xs: seq<Section>, thread: nat)
    decreases |xs|
  {
    xs != [] && ((xs[0] == Store(thread) && Can(s, xs[0])) || StoresLater(Step(s, xs[0]), xs[1..], thread))
  }

  // Some thread holds a finished record and stores it in the given sections.
  ghost predicate HeldAndStored(s: State, next: State, xs: seq<Section>) {
    exists t :: t in s.threads && s.threads[t].Holding? && StoresLater(next, xs, t)
  }

  // A retry is granted while some thread holds a finished record that it stores later.
  ghost predicate OvertakenByRetry(s: State, xs: seq<Section>)
    decreases |xs|
  {
    xs != [] &&
    (|| (RetryGranted(s, xs[0]) && HeldAndStored(s, Step(s, xs[0]), xs[1..]))
     || OvertakenByRetry(Step(s, xs[0]), xs[1..]))
  }

  // Some thread already holds a record of an earlier attempt, and stores it.
  ghost predicate StaleStored(s: State, xs: seq<Section>) {
    exists t :: t in s.threads && s.threads[t].Holding? && s.threads[t].finished.attempt < s.record.attempt
                && StoresLater(s, xs, t)
  }

  predicate RetryGranted(s: State, x: Section) {
    x.RequestRetry? && Can(s, x)
  }

  lemma RetryMakesAllStale(s: State, xs: seq<Section>)
    requires xs != [] && Behind(s) && RetryGranted(s, xs[0])
    ensures Behind(Step(s, xs[0]))
    ensures StaleStored(s, xs) ==> HeldAndStored(s, Step(s, xs[0]), xs[1..])
    ensures StaleStored(Step(s, xs[0]), xs[1..]) <==> HeldAndStored(s, Step(s, xs[0]), xs[1..])
  {
  }

  lemma StaleMovesOn(s: State, xs: seq<Section>)
    requires xs != [] && Behind(s) && !RetryGranted(s, xs[0]) && Step(s, xs[0]).record.attempt >= s.record.attempt
    ensures Behind(Step(s, xs[0]))
    ensures StaleStored(s, xs) <==> StaleStored(Step(s, xs[0]), xs[1..])
  {
    var next, rest := Step(s, xs[0]), xs[1..];
    if StaleStored(s, xs) {
      var t :| t in s.threads && s.threads[t].Holding? && s.threads[t].finished.attempt < s.record.attempt
               && StoresLater(s, xs, t);
      assert t in next.threads && next.threads[t] == s.threads[t] && StoresLater(next, rest, t);
    }
    if StaleStored(next, rest) {
      var t :| t in next.threads && next.threads[t].Holding? && next.threads[t].finished.attempt < next.record.attempt
               && StoresLater(next, rest, t);
      assert t in s.threads && s.threads[t] == next.threads[t] && StoresLater(s, xs, t);
    }
  }

  lemma {:induction false} LoweredFrom(s: State, xs: seq<Section>)
    requires Behind(s)
    ensures Lowers(s, xs) <==> OvertakenByRetry(s, xs) || StaleStored(s, xs)
    decreases |xs|
  {
    if xs != [] {
      var next := Step(s, xs[0]);
      if next.record.attempt < s.record.attempt {
        assert xs[0].Store? && StoresLater(s, xs, xs[0].thread);
      } else {
        if RetryGranted(s, xs[0]) { RetryMakesAllStale(s, xs); } else { StaleMovesOn(s, xs); }
        LoweredFrom(next, xs[1..]);
      }
    }
  }

  /**
   * Over any run, the attempt goes down in some section if and only if a retry is granted while some thread holds a
   * finished record that the same thread stores later.
   */
  lemma LoweredExactly(s: State, xs: seq<Section>)
    requires Current(s)
    ensures Lowers(s, xs) <==> OvertakenByRetry(s, xs)
  {
    LoweredFrom(s, xs);
  }

  lemma {:induction false} UnloweredCounts(s: State, xs: seq<Section>)
    requires Behind(s) && !Lowers(s, xs)
    ensures Ran(s, xs).record.attempt == s.record.attempt + Retries(s, xs)
    decreases |xs|
  {
    if xs != [] { UnloweredCounts(Step(s, xs[0]), xs[1..]); }
  }

  /** Without such a retry the attempt counts the retries. */
  lemma AttemptCountsRetries(s: State, xs: seq<Section>)
    requires Current(s) && !OvertakenByRetry(s, xs)
    ensures Ran(s, xs).record.attempt == s.record.attempt + Retries(s, xs)
  {
    LoweredExactly(s, xs);
    UnloweredCounts(s, xs);
  }

  /** A run with more starts than the limit leaves room for contains such a retry. */
  lemma StartsWithinLimit(s: State, xs: seq<Section>, limit: nat)
    requires s.threads == map[] && Within(s.record, limit)
    ensures Starts(s, xs) > limit - s.record.attempt + Waiting(s.record) ==> OvertakenByRetry(s, xs)
  {
    AttemptsBounded(s, xs, limit);
    StartsNeedRetries(s, xs);
    if !OvertakenByRetry(s, xs) { AttemptCountsRetries(s, xs); }
  }

  // Storing right after computing rules such retries out.
  predicate StoredAtOnce(xs: seq<Section>) {
    forall i :: 0 <= i < |xs| && xs[i].Compute? ==> i + 1 < |xs| && xs[i + 1] == Store(xs[i].thread)
  }

  lemma {:induction false} AtOnceIsEnough(s: State, xs: seq<Section>)
    requires StoredAtOnce(xs)
    requires if xs != [] && xs[0].Store? then forall t :: t in s.threads && t != xs[0].thread ==> s.threads[t].InRunner?
             else forall t :: t in s.threads ==> s.threads[t].InRunner?
    ensures !OvertakenByRetry(s, xs)
    decreases |xs|
  {
    if xs != [] {
      forall i | 0 <= i < |xs[1..]| && xs[1..][i].Compute?
        ensures i + 1 < |xs[1..]| && xs[1..][i + 1] == Store(xs[1..][i].thread)
      {
        assert xs[i + 1].Compute?;
      }
      AtOnceIsEnough(Step(s, xs[0]), xs[1..]);
    }
  }

  /* ---- Late stores defeat the limit ---- */

  // Queued for the second of two attempts, while a thread still holds the failure of the first.
  predicate Recurring(s: State, held: nat) {
    && s.record.status == Queued && s.record.attempt == 2 && s.record.maxAttempts == 2
    && s.threads.Keys == {held} && s.threads[held].Holding?
    && s.threads[held].finished.status == Failed
    && s.threads[held].finished.attempt == 1 && s.threads[held].finished.maxAttempts == 2
  }

  function Round(held: nat): seq<Section> {
    [Start(held + 1, true), Store(held), Compute(held + 1, RaisedError("lost")), RequestRetry]
  }

  lemma RoundRecurs(s: State, held: nat)
    requires Recurring(s, held)
    ensures Recurring(Ran(s, Round(held)), held + 1) && Starts(s, Round(held)) == 1
  {
    var xs := Round(held);
    var a := Step(s, xs[0]);
    var b := Step(a, xs[1]);
    var c := Step(b, xs[2]);
    var d := Step(c, xs[3]);
    assert b.threads.Keys == {held + 1};
    assert xs[1..] == [xs[1], xs[2], xs[3]] && xs[1..][1..] == [xs[2], xs[3]] && xs[1..][1..][1..] == [xs[3]];
    assert Ran(c, [xs[3]]) == d && Starts(c, [xs[3]]) == 0 by { assert [xs[3]][1..] == []; }
    assert Ran(b, [xs[2], xs[3]]) == d && Starts(b, [xs[2], xs[3]]) == 0 by { assert [xs[2], xs[3]][1..] == [xs[3]]; }
    assert Ran(a, xs[1..]) == d && Starts(a, xs[1..]) == 0;
  }

  lemma {:induction false} RunsConcat(s: State, xs: seq<Section>, ys: seq<Section>)
    ensures Ran(s, xs + ys) == Ran(Ran(s, xs), ys)
    ensures Starts(s, xs + ys) == Starts(s, xs) + Starts(Ran(s, xs), ys)
    decreases |xs|
  {
    if xs == [] {
      assert xs + ys == ys;
    } else {
      assert (xs + ys)[0] == xs[0] && (xs + ys)[1..] == xs[1..] + ys;
      RunsConcat(Step(s, xs[0]), xs[1..], ys);
    }
  }

  lemma {:induction false} RoundsRecur(s: State, held: nat, n: nat) returns (xs: seq<Section>)
    requires Recurring(s, held)
    ensures Starts(s, xs) == n
    decreases n
  {
    if n == 0 { return []; }
    RoundRecurs(s, held);
    var rest := RoundsRecur(Ran(s, Round(held)), held + 1, n - 1);
    RunsConcat(s, Round(held), rest);
    return Round(held) + rest;
  }

  const FIRST := State(Record(Queued, 0.0, None, None, 1, 2, 0, false), map[])

  function Opening(): seq<Section> {
    [Start(0, true), Compute(0, RaisedError("lost")), RequestCancel, RequestRetry]
  }

  lemma OpeningRecurs()
    ensures Recurring(Ran(FIRST, Opening()), 0)
  {
    var xs := Opening();
    var a := Step(FIRST, xs[0]);
    var b := Step(a, xs[1]);
    var c := Step(b, xs[2]);
    var d := Step(c, xs[3]);
    assert d.threads.Keys == {0};
    assert xs[1..] == [xs[1], xs[2], xs[3]] && xs[1..][1..] == [xs[2], xs[3]] && xs[1..][1..][1..] == [xs[3]];
    assert Ran(c, [xs[3]]) == d by { assert [xs[3]][1..] == []; }
    assert Ran(b, [xs[2], xs[3]]) == d by { assert [xs[2], xs[3]][1..] == [xs[3]]; }
    assert Ran(a, xs[1..]) == d;
  }

  /** With a limit of two attempts, late stores let a job be started any number of times. */
  lemma LateStoresDefeatTheLimit(n: nat)
    ensures exists xs :: Starts(FIRST, xs) >= n
  {
    OpeningRecurs();
    var rest := RoundsRecur(Ran(FIRST, Opening()), 0, n);
    RunsConcat(FIRST, Opening(), rest);
    assert Starts(FIRST, Opening() + rest) >= n;
  }

  /* ---- What the record says, field by field ---- */

  /** Starting clears a pending cancellation and shows some progress; retrying forgets result and error. */
  lemma RecordFields(r: Record, value: int, progress: real)
    ensures var s := Started(r);
            && s.status == Running && !s.cancellationRequested && s.progress >= 0.01 && s.progress >= r.progress
            && (s.progress == 0.01 || s.progress == r.progress)
            && (s.result, s.error, s.attempt, s.checkpoint) == (r.result, r.error, r.attempt, r.checkpoint)
    ensures var t := Retried(r);
            && t.status == Queued && !t.cancellationRequested && t.result == None && t.error == None
            && t.attempt == r.attempt + 1 && (t.checkpoint, t.progress) == (r.checkpoint, r.progress)
    ensures var c := CancelledOf(r);
            && c.status == Cancelled && c.cancellationRequested && (c.result, c.error) == (r.result, r.error)
            && (c.attempt, c.checkpoint, c.progress) == (r.attempt, r.checkpoint, r.progress)
    ensures var k := Checkpointed(r, value, progress);
            && k.checkpoint == value && k.progress == progress && (k.result, k.error) == (r.result, r.error)
            && (k.status, k.attempt, k.cancellationRequested) == (r.status, r.attempt, r.cancellationRequested)
  {
  }

  /** A failure leaves its message; a result is kept unless a cancellation was asked for, and then there is none. */
  lemma FinishedFields(r: Record, message: string, result: int)
    ensures var f := Finished(r, RaisedError(message));
            f.status == Failed && f.error == Some(message) && (f.result, f.progress) == (r.result, r.progress)
    ensures var c := Finished(r, RaisedCancelled);
            c.status == Cancelled && (c.result, c.error, c.progress) == (r.result, r.error, r.progress)
    ensures var d := Finished(r, Returned(result));
            && d.error == r.error
            && (if r.cancellationRequested || r.status == Cancelled
                then d.status == Cancelled && d.result == None && d.progress == r.progress
                else d.status == Completed && d.result == Some(result) && d.progress == 1.0)
  {
  }

  // The value of the last checkpoint that was accepted, or the given one.
  function LastSaved(s: State, xs: seq<Section>, otherwise: int): int
    decreases |xs|
  {
    if xs == [] then otherwise
    else
      LastSaved(Step(s, xs[0]), xs[1..],
                if xs[0].SaveProgress? && s.record.status == Running && 0.0 <= xs[0].progress < 1.0
                then xs[0].value else otherwise)
  }

  // No finished record is stored in the run.
  predicate NothingStored(s: State, xs: seq<Section>)
    decreases |xs|
  {
    xs == [] || (!(xs[0].Store? && Can(s, xs[0])) && NothingStored(Step(s, xs[0]), xs[1..]))
  }

  /** A retried runner finds the last checkpoint that was accepted, as long as no finished record is stored over it. */
  lemma {:induction false} CheckpointKept(s: State, xs: seq<Section>)
    requires NothingStored(s, xs)
    ensures Ran(s, xs).record.checkpoint == LastSaved(s, xs, s.record.checkpoint)
    decreases |xs|
  {
    if xs != [] { CheckpointKept(Step(s, xs[0]), xs[1..]); }
  }

  /** A finished job cannot be cancelled: nothing changes; any other one is cancelled, waiting or running. */
  lemma CancelDecided(s: State)
    ensures var after := Step(s, RequestCancel);
            && after.threads == s.threads
            && (s.record.status == Completed || s.record.status == Failed ==> after.record == s.record)
            && (s.record.status == Queued || s.record.status == Running || s.record.status == Cancelled ==>
                  after.record == s.record.(status := Cancelled, cancellationRequested := true))
  {
  }
}
