/** Whole runs of the command bus: exactly-once effect, stored receipts, isolation of branches. */
module BusRuns {
  import opened Wrappers
  import opened KernelState
  import opened CommandBus

  datatype Submission = Submission(proposal: Proposal, actor: Actor)

  function After(defs: Definitions, s: Store, x: Submission): Store {
    Executed(defs, s, x.proposal, x.actor).0
  }

  function Answer(defs: Definitions, s: Store, x: Submission): Result<Receipt, Error> {
    Executed(defs, s, x.proposal, x.actor).1
  }

  function RunAll(defs: Definitions, s: Store, xs: seq<Submission>): Store
    decreases |xs|
  {
    if xs == [] then s else RunAll(defs, After(defs, s, xs[0]), xs[1..])
  }

  // The submission succeeds and its key has not succeeded before.
  predicate TakesEffect(defs: Definitions, s: Store, x: Submission) {
    KeyFor(x.proposal) !in s.receipts && Answer(defs, s, x).Ok?
  }

  function Effective(defs: Definitions, s: Store, xs: seq<Submission>): seq<Submission>
    decreases |xs|
  {
    if xs == [] then []
    else
      (if TakesEffect(defs, s, xs[0]) then [xs[0]] else [])
      + Effective(defs, After(defs, s, xs[0]), xs[1..])
  }

  lemma NoEffect(defs: Definitions, s: Store, x: Submission)
    requires !TakesEffect(defs, s, x)
    ensures After(defs, s, x) == s
  {
  }

  /**
   * A submission either takes effect, and then adds its receipt and one version to its branch alone, or changes
   * nothing.
   */
  lemma StepEffect(defs: Definitions, s: Store, x: Submission)
    ensures var t := After(defs, s, x);
            var id := x.proposal.branch;
            if TakesEffect(defs, s, x) then
              && id in s.branches && t.branches.Keys == s.branches.Keys
              && t.branches[id] == s.branches[id].(
                   projections := t.branches[id].projections, version := s.branches[id].version + 1)
              && (forall b :: b in s.branches && b != id ==> t.branches[b] == s.branches[b])
              && Answer(defs, s, x).Ok?
              && t.receipts == s.receipts[KeyFor(x.proposal) := Answer(defs, s, x).value]
              && Answer(defs, s, x).value.stateHash == Hash(t.branches[id].projections)
              && ApplyAll(s.branches[id].projections, Answer(defs, s, x).value.result.deltas)
                 == Some(t.branches[id].projections)
            else t == s
  {
    NormalizedKeepsKey(defs, x);
  }

  lemma NormalizedKeepsKey(defs: Definitions, x: Submission)
    ensures var a := Authorize(defs, x.proposal, x.actor);
            a.Ok? ==> KeyFor(a.value) == KeyFor(x.proposal) && a.value.branch == x.proposal.branch
                      && a.value.world == x.proposal.world
  {
  }

  // The proposal names its actor, is of a registered type, and the actor may do it on this branch and with this entity.
  predicate Authorized(defs: Definitions, s: Store, x: Submission) {
    var p := x.proposal;
    && p.actor == x.actor.id && p.commandType in defs && p.branch in s.branches
    && var d := defs[p.commandType];
    && d.required <= x.actor.capabilities
    && (if s.branches[p.branch].kind == Canonical then "action.commit" else "action.propose") in x.actor.capabilities
    && s.branches[p.branch].kind in d.kinds && s.branches[p.branch].world == p.world
    && (d.needsEntity ==> p.embodied.Some? && p.embodied.value in x.actor.controlled)
    && d.normalize(p.parameters).Some?
  }

  /** Deny by default: only authorized submissions take effect. */
  lemma EffectNeedsAuthority(defs: Definitions, s: Store, x: Submission)
    requires TakesEffect(defs, s, x)
    ensures Authorized(defs, s, x)
  {
    NormalizedKeepsKey(defs, x);
  }

  // The proposal as its handler gets it, and its branch after the deltas.
  function Normalized(defs: Definitions, p: Proposal): Proposal
    requires p.commandType in defs && defs[p.commandType].normalize(p.parameters).Some?
  {
    p.(parameters := defs[p.commandType].normalize(p.parameters).value)
  }

  // What a receipt says: the handler's checked result, its deltas, the event made of it, and who perceives it.
  predicate Tells(defs: Definitions, p: Proposal, before: Branch, after: Projections, receipt: Receipt) {
    && p.commandType in defs && defs[p.commandType].normalize(p.parameters).Some?
    && var d, q := defs[p.commandType], Normalized(defs, p);
    && d.handler(q, before) == Ok(receipt.result) && d.validResult(receipt.result.result)
    && ApplyAll(before.projections, receipt.result.deltas) == Some(after)
    && d.emission(q, receipt.result, before, before.(projections := after)) == Some(receipt.perceptions)
    && receipt.event == Event(ReceiptKey(p.run, p.actor, p.idempotencyKey), p.world, p.branch, p.commandType,
                              receipt.result.result)
    && receipt.stateHash == Hash(after)
  }

  /** The receipt of what takes effect says exactly what the command's definition makes of the branch before it. */
  lemma ReceiptTells(defs: Definitions, s: Store, x: Submission)
    requires TakesEffect(defs, s, x)
    ensures var id := x.proposal.branch;
            && id in s.branches && id in After(defs, s, x).branches
            && Tells(defs, x.proposal, s.branches[id], After(defs, s, x).branches[id].projections,
                     Answer(defs, s, x).value)
  {
    StepEffect(defs, s, x);
    EffectNeedsAuthority(defs, s, x);
    NormalizedKeepsKey(defs, x);
    assert Authorize(defs, x.proposal, x.actor) == Ok(Normalized(defs, x.proposal));
  }

  // The handler answers, its result passes the check, its deltas apply, and the event can be emitted.
  predicate Performs(d: Definition, q: Proposal, before: Branch) {
    && d.handler(q, before).Ok?
    && var result := d.handler(q, before).value;
    && d.validResult(result.result) && ApplyAll(before.projections, result.deltas).Some?
    && d.emission(q, result, before, before.(projections := ApplyAll(before.projections, result.deltas).value)).Some?
  }

  /** A submission takes effect if and only if its key is new, it is authorized, and all of its command succeeds. */
  lemma TakesEffectIff(defs: Definitions, s: Store, x: Submission)
    ensures TakesEffect(defs, s, x) <==>
            && KeyFor(x.proposal) !in s.receipts && Authorized(defs, s, x)
            && Performs(defs[x.proposal.commandType], Normalized(defs, x.proposal), s.branches[x.proposal.branch])
  {
    NormalizedKeepsKey(defs, x);
    if Authorized(defs, s, x) {
      assert Authorize(defs, x.proposal, x.actor) == Ok(Normalized(defs, x.proposal));
    }
    if TakesEffect(defs, s, x) { EffectNeedsAuthority(defs, s, x); }
  }

  /** So a result that fails its check, or deltas or an emission that cannot be made, change nothing. */
  lemma FailedCommandChangesNothing(defs: Definitions, s: Store, x: Submission)
    requires KeyFor(x.proposal) !in s.receipts && Authorized(defs, s, x)
    requires !Performs(defs[x.proposal.commandType], Normalized(defs, x.proposal), s.branches[x.proposal.branch])
    ensures After(defs, s, x) == s && Answer(defs, s, x).Err?
  {
    TakesEffectIff(defs, s, x);
    NoEffect(defs, s, x);
  }

  // The i-th submission was the one that took effect under the key, was authorized then, and got this receipt, which
  // tells what it did to its branch.
  ghost predicate MadeBy(defs: Definitions, s: Store, xs: seq<Submission>, i: nat, key: ReceiptKey, receipt: Receipt)
    requires i < |xs|
  {
    var t := RunAll(defs, s, xs[..i]);
    && KeyFor(xs[i].proposal) == key && TakesEffect(defs, t, xs[i]) && Authorized(defs, t, xs[i])
    && Answer(defs, t, xs[i]) == Ok(receipt) && xs[i].proposal.branch in t.branches
    && var next := After(defs, t, xs[i]).branches;
    && xs[i].proposal.branch in next
    && Tells(defs, xs[i].proposal, t.branches[xs[i].proposal.branch], next[xs[i].proposal.branch].projections, receipt)
  }

  lemma MadeLater(defs: Definitions, s: Store, xs: seq<Submission>, i: nat, key: ReceiptKey, receipt: Receipt)
    requires xs != [] && i < |xs| - 1 && MadeBy(defs, After(defs, s, xs[0]), xs[1..], i, key, receipt)
    ensures MadeBy(defs, s, xs, i + 1, key, receipt)
  {
    assert xs[..i + 1][0] == xs[0] && xs[..i + 1][1..] == xs[1..][..i];
  }

  /** Every receipt a run adds is that of the authorized submission of the run that took effect under its key. */
  lemma {:induction false} ReceiptsAreAuthorized(defs: Definitions, s: Store, xs: seq<Submission>, key: ReceiptKey)
    requires key in RunAll(defs, s, xs).receipts && key !in s.receipts
    ensures exists i :: 0 <= i < |xs| && MadeBy(defs, s, xs, i, key, RunAll(defs, s, xs).receipts[key])
    decreases |xs|
  {
    if xs != [] {
      var t := After(defs, s, xs[0]);
      var receipt := RunAll(defs, s, xs).receipts[key];
      StepEffect(defs, s, xs[0]);
      if key in t.receipts {
        EffectNeedsAuthority(defs, s, xs[0]);
        ReceiptTells(defs, s, xs[0]);
        ReceiptsStay(defs, t, xs[1..], key);
        assert xs[..0] == [] && MadeBy(defs, s, xs, 0, key, receipt);
      } else {
        ReceiptsAreAuthorized(defs, t, xs[1..], key);
        var i :| 0 <= i < |xs[1..]| && MadeBy(defs, t, xs[1..], i, key, receipt);
        MadeLater(defs, s, xs, i, key, receipt);
      }
    }
  }

  /** A run has the same outcome as its effective submissions alone: the first success of each key, once. */
  lemma {:induction false} OnlyFirstSuccessesCount(defs: Definitions, s: Store, xs: seq<Submission>)
    ensures RunAll(defs, s, xs) == RunAll(defs, s, Effective(defs, s, xs))
    ensures Effective(defs, s, Effective(defs, s, xs)) == Effective(defs, s, xs)
    decreases |xs|
  {
    if xs != [] {
      var t := After(defs, s, xs[0]);
      var rest := Effective(defs, t, xs[1..]);
      OnlyFirstSuccessesCount(defs, t, xs[1..]);
      if TakesEffect(defs, s, xs[0]) {
        assert ([xs[0]] + rest)[0] == xs[0] && ([xs[0]] + rest)[1..] == rest;
      } else {
        NoEffect(defs, s, xs[0]);
        assert Effective(defs, s, xs) == rest;
      }
    }
  }

  ghost predicate HasKey(xs: seq<Submission>, key: ReceiptKey) {
    exists i :: 0 <= i < |xs| && KeyFor(xs[i].proposal) == key
  }

  ghost predicate KeysDistinct(xs: seq<Submission>) {
    forall i, j :: 0 <= i < j < |xs| ==> KeyFor(xs[i].proposal) != KeyFor(xs[j].proposal)
  }

  lemma HasKeyCons(x: Submission, xs: seq<Submission>, key: ReceiptKey)
    ensures HasKey([x] + xs, key) <==> KeyFor(x.proposal) == key || HasKey(xs, key)
  {
    var all := [x] + xs;
    assert all[0] == x;
    if HasKey(xs, key) {
      var i :| 0 <= i < |xs| && KeyFor(xs[i].proposal) == key;
      assert all[i + 1] == xs[i];
    }
  }

  /** The keys newly receipted in a run are exactly those of its effective submissions. */
  lemma {:induction false} EffectiveReceipts(defs: Definitions, s: Store, xs: seq<Submission>, key: ReceiptKey)
    ensures key in RunAll(defs, s, xs).receipts <==> key in s.receipts || HasKey(Effective(defs, s, xs), key)
    decreases |xs|
  {
    if xs != [] {
      var t := After(defs, s, xs[0]);
      var rest := Effective(defs, t, xs[1..]);
      StepEffect(defs, s, xs[0]);
      EffectiveReceipts(defs, t, xs[1..], key);
      if TakesEffect(defs, s, xs[0]) {
        HasKeyCons(xs[0], rest, key);
      } else {
        assert Effective(defs, s, xs) == rest;
      }
    }
  }

  /** The effective submissions have distinct keys, none of them receipted before. */
  lemma {:induction false} EffectiveKeys(defs: Definitions, s: Store, xs: seq<Submission>)
    ensures var e := Effective(defs, s, xs);
            KeysDistinct(e) && forall i :: 0 <= i < |e| ==> KeyFor(e[i].proposal) !in s.receipts
    decreases |xs|
  {
    if xs != [] {
      var t := After(defs, s, xs[0]);
      StepEffect(defs, s, xs[0]);
      EffectiveKeys(defs, t, xs[1..]);
      var rest := Effective(defs, t, xs[1..]);
      if TakesEffect(defs, s, xs[0]) {
        assert Effective(defs, s, xs) == [xs[0]] + rest;
      } else {
        assert Effective(defs, s, xs) == rest;
      }
    }
  }

  /** A stored receipt is never replaced. */
  lemma {:induction false} ReceiptsStay(defs: Definitions, s: Store, xs: seq<Submission>, key: ReceiptKey)
    requires key in s.receipts
    ensures key in RunAll(defs, s, xs).receipts && RunAll(defs, s, xs).receipts[key] == s.receipts[key]
    decreases |xs|
  {
    if xs != [] {
      StepEffect(defs, s, xs[0]);
      ReceiptsStay(defs, After(defs, s, xs[0]), xs[1..], key);
    }
  }

  /** A retry that passes the checks gets the original receipt, whatever came in between, and changes nothing. */
  lemma RetryReturnsReceipt(defs: Definitions, s: Store, x: Submission, xs: seq<Submission>, retry: Submission)
    requires Answer(defs, s, x).Ok?
    requires KeyFor(retry.proposal) == KeyFor(x.proposal)
    requires Authorize(defs, retry.proposal, retry.actor).Ok?
    ensures var later := RunAll(defs, After(defs, s, x), xs);
            Answer(defs, later, retry) == Answer(defs, s, x) && After(defs, later, retry) == later
  {
    StepEffect(defs, s, x);
    NormalizedKeepsKey(defs, x);
    NormalizedKeepsKey(defs, retry);
    ReceiptsStay(defs, After(defs, s, x), xs, KeyFor(x.proposal));
  }

  function CountOn(xs: seq<Submission>, branch: nat): nat {
    if xs == [] then 0 else (if xs[0].proposal.branch == branch then 1 else 0) + CountOn(xs[1..], branch)
  }

  /** A branch's version grows by the number of its effective submissions; with none it keeps its whole state. */
  lemma {:induction false} VersionCountsSuccesses(defs: Definitions, s: Store, xs: seq<Submission>, branch: nat)
    requires branch in s.branches
    ensures branch in RunAll(defs, s, xs).branches
    ensures var n := CountOn(Effective(defs, s, xs), branch);
            && RunAll(defs, s, xs).branches[branch].version == s.branches[branch].version + n
            && (n == 0 ==> RunAll(defs, s, xs).branches[branch] == s.branches[branch])
    decreases |xs|
  {
    if xs != [] {
      var t := After(defs, s, xs[0]);
      StepEffect(defs, s, xs[0]);
      VersionCountsSuccesses(defs, t, xs[1..], branch);
      var rest := Effective(defs, t, xs[1..]);
      if TakesEffect(defs, s, xs[0]) {
        assert Effective(defs, s, xs)[0] == xs[0] && Effective(defs, s, xs)[1..] == rest;
      } else {
        assert Effective(defs, s, xs) == rest;
      }
    }
  }
}
