/** Rebuilding a branch from committed command results. */
module Replay {
  import opened Wrappers
  import opened KernelState
  import opened CommandBus

  datatype ReplayRecord = ReplayRecord(proposal: Proposal, result: CommandResult, expected: Hash)

  datatype ReplayError = Diverged(index: nat) | DeltaRaised(index: nat)

  // Applies the recorded deltas in order, comparing the hash after every record.
  function Replayed(b: Branch, records: seq<ReplayRecord>): Result<Branch, ReplayError> {
    if records == [] then Ok(b)
    else
      var last := records[|records| - 1];
      match Replayed(b, records[..|records| - 1])
      case Err(e) => Err(e)
      case Ok(s) =>
        match ApplyAll(s.projections, last.result.deltas)
        case None => Err(DeltaRaised(|records|))
        case Some(q) =>
          if Hash(q) == last.expected then Ok(s.(projections := q, version := s.version + 1))
          else Err(Diverged(|records|))
  }

  ghost predicate Rebuilds(start: Branch, records: seq<ReplayRecord>, live: Branch) {
    Replayed(start, records) == Ok(live)
  }

  lemma RebuildsMore(start: Branch, records: seq<ReplayRecord>, live: Branch, next: ReplayRecord, q: Projections)
    requires Rebuilds(start, records, live)
    requires ApplyAll(live.projections, next.result.deltas) == Some(q) && next.expected == Hash(q)
    ensures Rebuilds(start, records + [next], live.(projections := q, version := live.version + 1))
  {
    assert (records + [next])[..|records|] == records;
  }

  /** A replay that does not diverge adds one version per record and leaves the branch's identity alone. */
  lemma {:induction false} ReplayedVersion(b: Branch, records: seq<ReplayRecord>)
    ensures Replayed(b, records).Ok? ==>
              var r := Replayed(b, records).value;
              r == b.(projections := r.projections, version := b.version + |records|)
  {
    if records != [] { ReplayedVersion(b, records[..|records| - 1]); }
  }

  function AllDeltas(records: seq<ReplayRecord>): seq<Delta> {
    if records == [] then []
    else AllDeltas(records[..|records| - 1]) + records[|records| - 1].result.deltas
  }

  /** Replaying record by record gives the same projections as applying all the logged deltas in one go. */
  lemma {:induction false} ReplayIsOneBatch(b: Branch, records: seq<ReplayRecord>)
    requires Replayed(b, records).Ok?
    ensures ApplyAll(b.projections, AllDeltas(records)) == Some(Replayed(b, records).value.projections)
  {
    if records != [] {
      var shorter := records[..|records| - 1];
      ReplayIsOneBatch(b, shorter);
      ApplyAllConcat(b.projections, AllDeltas(shorter), records[|records| - 1].result.deltas);
    }
  }

  lemma {:induction false} ErrorStays(b: Branch, records: seq<ReplayRecord>, i: nat)
    requires i <= |records| && Replayed(b, records[..i]).Err?
    ensures Replayed(b, records) == Replayed(b, records[..i])
  {
    if i == |records| {
      assert records[..i] == records;
    } else {
      assert records[..|records| - 1][..i] == records[..i];
      ErrorStays(b, records[..|records| - 1], i);
    }
  }

  // The records before the k-th, counted from one, can be replayed.
  ghost predicate Reaches(b: Branch, records: seq<ReplayRecord>, k: nat) {
    0 < k <= |records| && Replayed(b, records[..k - 1]).Ok?
  }

  ghost function Tried(b: Branch, records: seq<ReplayRecord>, k: nat): Option<Projections>
    requires Reaches(b, records, k)
  {
    ApplyAll(Replayed(b, records[..k - 1]).value.projections, records[k - 1].result.deltas)
  }

  /** A replay fails at a record, counted from one, exactly if that is the first that cannot be applied or diverges. */
  lemma {:induction false} ReplayFailsAt(b: Branch, records: seq<ReplayRecord>, k: nat)
    ensures Replayed(b, records) == Err(DeltaRaised(k)) <==>
            Reaches(b, records, k) && Tried(b, records, k).None?
    ensures Replayed(b, records) == Err(Diverged(k)) <==>
            Reaches(b, records, k) && Tried(b, records, k).Some?
            && records[k - 1].expected != Hash(Tried(b, records, k).value)
  {
    if records != [] {
      var front := records[..|records| - 1];
      ReplayFailsAt(b, front, k);
      if 0 < k <= |front| { assert front[..k - 1] == records[..k - 1]; }
    }
  }

  class ReplayEngine {
    static method Replay(initial: BranchState, records: seq<ReplayRecord>)
      returns (r: Result<BranchState, ReplayError>)
      ensures r.Ok? ==> fresh(r.value) && Replayed(initial.View(), records) == Ok(r.value.View())
      ensures r.Err? ==> Replayed(initial.View(), records) == Err(r.error)
    {
      var state := initial.WorkingCopy();
      var i := 0;
      while i < |records|
        invariant 0 <= i <= |records|
        invariant Replayed(initial.View(), records[..i]) == Ok(state.View())
        invariant fresh(state)
      {
        assert records[..i + 1][..i] == records[..i];
        var applied := state.ApplyEach(records[i].result.deltas);
        if !applied {
          ErrorStays(initial.View(), records, i + 1);
          return Err(DeltaRaised(i + 1));
        }
        state.version := state.version + 1;
        if Hash(state.projections) != records[i].expected {
          ErrorStays(initial.View(), records, i + 1);
          return Err(Diverged(i + 1));
        }
        i := i + 1;
      }
      assert records[..i] == records;
      return Ok(state);
    }
  }
}
