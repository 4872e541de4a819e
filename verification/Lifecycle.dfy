/** The population lifecycle: statistical personas are materialized, then activated and deactivated in turn. */
module Lifecycle {
  import opened Wrappers

  datatype Level = Statistical | Materialized | Active

  type Fields = map<string, int>

  // The digest of a state is taken to be injective.
  datatype Hash = Hash(of: Fields)

  datatype Member = Member(
    persona: nat, level: Level, place: Option<(nat, nat)>, profile: Fields,
    persistent: Fields, active: Fields, compressed: Fields, version: nat, worldStep: int)

  datatype Transition = Transition(
    sequence: nat, persona: nat, place: Option<(nat, nat)>, version: nat, before: Level, after: Level,
    reason: string, worldStep: int, persistentHash: Hash, activeHash: Hash)

  datatype Book = Book(place: Option<(nat, nat)>, members: map<nat, Member>, history: seq<Transition>)

  datatype Problem =
    | UnknownPersona | ProfileDiffers | ProfileMissing | WrongLevel | HalfPlace | NegativeStep | StepBackward

  // Two identifiers that must be given together or not at all.
  datatype Target = Target(world: Option<nat>, branch: Option<nat>)

  const PRESERVED: set<string> := {"beliefs", "memories", "relationships", "finances", "history"}

  /* ---- Operations on the book ---- */

  function Own(history: seq<Transition>, persona: nat): seq<Transition> {
    if history == [] then []
    else
      Own(history[..|history| - 1], persona)
      + if history[|history| - 1].persona == persona then [history[|history| - 1]] else []
  }

  predicate Backward(history: seq<Transition>, persona: nat, step: int) {
    var own := Own(history, persona);
    own != [] && step < own[|own| - 1].worldStep
  }

  function TransitionFor(history: seq<Transition>, before: Member, after: Member, step: int,
                         reason: string): Transition {
    Transition(|history| + 1, before.persona, after.place, after.version, before.level, after.level, reason, step,
               Hash(after.persistent), Hash(after.active))
  }

  function Committed(b: Book, before: Member, after: Member, step: int, reason: string)
    : (Book, Result<Member, Problem>)
  {
    if step < 0 then (b, Err(NegativeStep))
    else if Backward(b.history, before.persona, step) then (b, Err(StepBackward))
    else
      (b.(members := b.members[after.persona := after],
          history := b.history + [TransitionFor(b.history, before, after, step, reason)]),
       Ok(after))
  }

  function Registered(b: Book, persona: nat, profile: Fields): (Book, Result<Member, Problem>) {
    if persona in b.members then
      if b.members[persona].profile == profile then (b, Ok(b.members[persona])) else (b, Err(ProfileDiffers))
    else
      var m := Member(persona, Statistical, b.place, profile, map[], map[], map[], 0, 0);
      (b.(members := b.members[persona := m]), Ok(m))
  }

  function Placed(target: Target, own: Option<(nat, nat)>): Option<Option<(nat, nat)>> {
    var world := if target.world.Some? then target.world else if own.Some? then Some(own.value.0) else None;
    var branch := if target.branch.Some? then target.branch else if own.Some? then Some(own.value.1) else None;
    if world.Some? && branch.Some? then Some(Some((world.value, branch.value)))
    else if world.None? && branch.None? then Some(None)
    else None
  }

  // A persona that was not registered is registered first, and stays so even if the rest fails.
  function MaterializedIn(b: Book, persona: nat, profile: Option<Fields>, persistent: Fields, step: int, target: Target,
                          reason: string): (Book, Result<Member, Problem>) {
    if persona !in b.members && profile.None? then (b, Err(ProfileMissing))
    else
      var known := if persona in b.members then b else Registered(b, persona, profile.value).0;
      var before := known.members[persona];
      if before.level != Statistical then (known, Err(WrongLevel))
      else
        match Placed(target, b.place)
        case None => (known, Err(HalfPlace))
        case Some(place) =>
          var after := before.(level := Materialized, place := place, persistent := persistent, active := map[],
                               compressed := map[], version := before.version + 1, worldStep := step);
          Committed(known, before, after, step, reason)
  }

  function Activated(b: Book, persona: nat, active: Fields, step: int, reason: string)
    : (Book, Result<Member, Problem>)
  {
    if persona !in b.members then (b, Err(UnknownPersona))
    else
      var before := b.members[persona];
      if before.level != Materialized then (b, Err(WrongLevel))
      else
        Committed(b, before, before.(level := Active, active := active, version := before.version + 1,
                                     worldStep := step),
                  step, reason)
  }

  // What survives of an active persona: the preserved part of its active state over what it had, and the compression
  // on top.
  function Compressed(before: Member, compressed: Fields, preserved: set<string>): Fields {
    before.persistent + Part(before.active, preserved) + compressed
  }

  function Part(fields: Fields, names: set<string>): Fields {
    map name | name in fields && name in names :: fields[name]
  }

  lemma PartMore(base: Fields, fields: Fields, names: set<string>, name: string)
    ensures base + Part(fields, names + {name}) ==
            if name in fields then (base + Part(fields, names))[name := fields[name]] else base + Part(fields, names)
  {
  }

  function Deactivated(b: Book, persona: nat, step: int, compressed: Fields, preserve: Option<set<string>>,
                       reason: string)
    : (Book, Result<Member, Problem>)
  {
    if persona !in b.members then (b, Err(UnknownPersona))
    else
      var before := b.members[persona];
      if before.level != Active then (b, Err(WrongLevel))
      else
        var kept := Compressed(before, compressed, if preserve.Some? then preserve.value else PRESERVED);
        Committed(b, before, before.(level := Materialized, persistent := kept, active := map[],
                                     compressed := compressed,
                                     version := before.version + 1, worldStep := step),
                  step, reason)
  }

  /* ---- The object ---- */

  class PopulationLifecycle {
    const place: Option<(nat, nat)>
    var members: map<nat, Member>
    var history: seq<Transition>

    function View(): Book
      reads this
    {
      Book(place, members, history)
    }

    constructor (place: Option<(nat, nat)>)
      ensures View() == Book(place, map[], [])
    {
      this.place := place;
      members, history := map[], [];
    }

    method Commit(before: Member, after: Member, step: int, reason: string) returns (r: Result<Member, Problem>)
      modifies this
      ensures (View(), r) == Committed(old(View()), before, after, step, reason)
    {
      if step < 0 { return Err(NegativeStep); }
      var priorSteps: seq<int> := [];
      for i := 0 to |history|
        invariant history == old(history)
        invariant var own := Own(history[..i], before.persona);
                  |priorSteps| == |own| && forall k :: 0 <= k < |own| ==> priorSteps[k] == own[k].worldStep
      {
        assert history[..i + 1][..i] == history[..i];
        if history[i].persona == before.persona { priorSteps := priorSteps + [history[i].worldStep]; }
      }
      assert history[..|history|] == history;
      if priorSteps != [] && step < priorSteps[|priorSteps| - 1] { return Err(StepBackward); }
      members := members[after.persona := after];
      history := history + [Transition(
        |history| + 1, before.persona, after.place, after.version, before.level, after.level, reason, step,
        Hash(after.persistent), Hash(after.active))];
      return Ok(after);
    }

    method Register(persona: nat, profile: Fields) returns (r: Result<Member, Problem>)
      modifies this
      ensures (View(), r) == Registered(old(View()), persona, profile)
    {
      if persona in members {
        if members[persona].profile != profile { return Err(ProfileDiffers); }
        return Ok(members[persona]);
      }
      members := members[persona := Member(persona, Statistical, place, profile, map[], map[], map[], 0, 0)];
      return Ok(members[persona]);
    }

    method Materialize(persona: nat, profile: Option<Fields>, persistent: Fields, step: int, target: Target,
                       reason: string)
      returns (r: Result<Member, Problem>)
      modifies this
      ensures (View(), r) == MaterializedIn(old(View()), persona, profile, persistent, step, target, reason)
    {
      if persona !in members {
        if profile.None? { return Err(ProfileMissing); }
        var _ := Register(persona, profile.value);
      }
      var before := members[persona];
      if before.level != Statistical { return Err(WrongLevel); }
      var where := Placed(target, place);
      if where.None? { return Err(HalfPlace); }
      r := Commit(before, before.(level := Materialized, place := where.value, persistent := persistent,
                                  active := map[],
                                  compressed := map[], version := before.version + 1, worldStep := step), step, reason);
    }

    method Activate(persona: nat, active: Fields, step: int, reason: string) returns (r: Result<Member, Problem>)
      modifies this
      ensures (View(), r) == Activated(old(View()), persona, active, step, reason)
    {
      if persona !in members { return Err(UnknownPersona); }
      var before := members[persona];
      if before.level != Materialized { return Err(WrongLevel); }
      r := Commit(before, before.(level := Active, active := active, version := before.version + 1, worldStep := step),
                  step, reason);
    }

    // Copies the preserved fields one at a time.
    method Compress(before: Member, compressed: Fields, preserved: set<string>) returns (r: Fields)
      ensures r == Compressed(before, compressed, preserved)
    {
      r := before.persistent;
      var rest := preserved;
      ghost var done: set<string> := {};
      assert Part(before.active, done) == map[];
      while rest != {}
        invariant done + rest == preserved
        invariant r == before.persistent + Part(before.active, done)
        decreases rest
      {
        var field :| field in rest;
        PartMore(before.persistent, before.active, done, field);
        if field in before.active { r := r[field := before.active[field]]; }
        rest := rest - {field};
        done := done + {field};
      }
      assert done == preserved;
      r := r + compressed;
    }

    method Deactivate(persona: nat, step: int, compressed: Fields, preserve: Option<set<string>>, reason: string)
      returns (r: Result<Member, Problem>)
      modifies this
      ensures (View(), r) == Deactivated(old(View()), persona, step, compressed, preserve, reason)
    {
      if persona !in members { return Err(UnknownPersona); }
      var before := members[persona];
      if before.level != Active { return Err(WrongLevel); }
      var kept := Compress(before, compressed, if preserve.Some? then preserve.value else PRESERVED);
      r := Commit(before, before.(level := Materialized, persistent := kept, active := map[], compressed := compressed,
                                  version := before.version + 1, worldStep := step), step, reason);
    }
  }

  /* ---- Whole runs ---- */

  datatype Op =
    | Register(persona: nat, profile: Fields)
    | Materialize(persona: nat, given: Option<Fields>, persistent: Fields, step: int, target: Target, reason: string)
    | Activate(persona: nat, active: Fields, step: int, reason: string)
    | Deactivate(persona: nat, step: int, compressed: Fields, preserve: Option<set<string>>, reason: string)

  function Next(b: Book, op: Op): Book {
    match op
    case Register(p, profile) => Registered(b, p, profile).0
    case Materialize(p, given, persistent, step, target, reason) =>
      MaterializedIn(b, p, given, persistent, step, target, reason).0
    case Activate(p, active, step, reason) => Activated(b, p, active, step, reason).0
    case Deactivate(p, step, compressed, preserve, reason) => Deactivated(b, p, step, compressed, preserve, reason).0
  }

  function Ran(b: Book, ops: seq<Op>): Book
    decreases |ops|
  {
    if ops == [] then b else Ran(Next(b, ops[0]), ops[1..])
  }

  predicate LegalMove(before: Level, after: Level) {
    (before, after) in {(Statistical, Materialized), (Materialized, Active), (Active, Materialized)}
  }

  // A persona's transitions, from first to last: legal moves that join up, counted versions, steps that never go back.
  ghost predicate Chained(own: seq<Transition>) {
    && (own != [] ==> own[0].before == Statistical)
    && (forall i :: 0 <= i < |own| ==>
          LegalMove(own[i].before, own[i].after) && own[i].version == i + 1 && own[i].worldStep >= 0)
    && (forall i, j :: 0 <= i < j < |own| ==> own[i].worldStep <= own[j].worldStep)
    && (forall i, j :: 0 <= i < j < |own| && j == i + 1 ==> own[i].after == own[j].before)
  }

  // The member is where its last transition left it.
  ghost predicate Matches(m: Member, own: seq<Transition>) {
    && m.version == |own|
    && (m.level != Active ==> m.active == map[])
    && (if own == [] then m.level == Statistical && m.persistent == map[]
        else
          var last := own[|own| - 1];
          && m.level == last.after && m.worldStep == last.worldStep && m.place == last.place
          && Hash(m.persistent) == last.persistentHash && Hash(m.active) == last.activeHash)
  }

  ghost predicate Orderly(b: Book, p: nat) {
    && Chained(Own(b.history, p))
    && (p !in b.members ==> Own(b.history, p) == [])
    && (p in b.members ==> b.members[p].persona == p && Matches(b.members[p], Own(b.history, p)))
  }

  ghost predicate Inv(b: Book) {
    && (forall p :: Orderly(b, p))
    && (forall i :: 0 <= i < |b.history| ==> b.history[i].sequence == i + 1)
  }

  lemma OwnMore(history: seq<Transition>, t: Transition, p: nat)
    ensures Own(history + [t], p) == Own(history, p) + if t.persona == p then [t] else []
  {
    assert (history + [t])[..|history|] == history;
  }

  lemma OthersStayOrderly(b: Book, m: Member, t: Transition, p: nat)
    requires Orderly(b, p) && t.persona != p && m.persona == t.persona
    ensures Orderly(b.(members := b.members[m.persona := m], history := b.history + [t]), p)
  {
    OwnMore(b.history, t, p);
  }

  lemma MoverStaysOrderly(b: Book, before: Member, after: Member, step: int, reason: string)
    requires Orderly(b, before.persona) && before.persona in b.members && b.members[before.persona] == before
    requires after.persona == before.persona && after.version == before.version + 1 && after.worldStep == step
    requires LegalMove(before.level, after.level) && (after.level != Active ==> after.active == map[])
    requires step >= 0 && !Backward(b.history, before.persona, step)
    ensures Orderly(Committed(b, before, after, step, reason).0, before.persona)
  {
    var t := TransitionFor(b.history, before, after, step, reason);
    OwnMore(b.history, t, before.persona);
    ChainGrows(Own(b.history, before.persona), t, before);
  }

  lemma CommitKeeps(b: Book, before: Member, after: Member, step: int, reason: string)
    requires Inv(b) && before.persona in b.members && b.members[before.persona] == before
    requires after.persona == before.persona && after.version == before.version + 1 && after.worldStep == step
    requires LegalMove(before.level, after.level) && (after.level != Active ==> after.active == map[])
    ensures Inv(Committed(b, before, after, step, reason).0)
  {
    var c := Committed(b, before, after, step, reason).0;
    if step >= 0 && !Backward(b.history, before.persona, step) {
      forall p ensures Orderly(c, p) {
        assert Orderly(b, p);
        if p == before.persona {
          MoverStaysOrderly(b, before, after, step, reason);
        } else {
          OthersStayOrderly(b, after, TransitionFor(b.history, before, after, step, reason), p);
        }
      }
    }
  }

  lemma ChainGrows(own: seq<Transition>, t: Transition, before: Member)
    requires Chained(own) && Matches(before, own)
    requires t.before == before.level && t.version == before.version + 1 && LegalMove(t.before, t.after)
             && t.worldStep >= 0
    requires own != [] ==> own[|own| - 1].worldStep <= t.worldStep
    ensures Chained(own + [t])
  {
    var more := own + [t];
    forall i, j | 0 <= i < j < |more| ensures more[i].worldStep <= more[j].worldStep {
      if j == |own| && i < |own| - 1 { assert own[i].worldStep <= own[|own| - 1].worldStep; }
    }
  }

  lemma RegisterKeeps(b: Book, persona: nat, profile: Fields)
    requires Inv(b)
    ensures Inv(Registered(b, persona, profile).0)
  {
    var c := Registered(b, persona, profile).0;
    forall p ensures Orderly(c, p) { assert Orderly(b, p); }
  }

  lemma MaterializeKeeps(b: Book, p: nat, given: Option<Fields>, persistent: Fields, step: int, target: Target,
                         reason: string)
    requires Inv(b)
    ensures Inv(MaterializedIn(b, p, given, persistent, step, target, reason).0)
  {
    if p in b.members || given.Some? {
      var known := if p in b.members then b else Registered(b, p, given.value).0;
      if p !in b.members { RegisterKeeps(b, p, given.value); }
      var before := known.members[p];
      var place := Placed(target, b.place);
      assert Orderly(known, p);
      if before.level == Statistical && place.Some? {
        CommitKeeps(known, before,
                    before.(level := Materialized, place := place.value, persistent := persistent, active := map[],
                            compressed := map[], version := before.version + 1, worldStep := step), step, reason);
      }
    }
  }

  lemma ActivateKeeps(b: Book, p: nat, active: Fields, step: int, reason: string)
    requires Inv(b)
    ensures Inv(Activated(b, p, active, step, reason).0)
  {
    assert Orderly(b, p);
    if p in b.members && b.members[p].level == Materialized {
      var before := b.members[p];
      CommitKeeps(b, before, before.(level := Active, active := active, version := before.version + 1,
                                     worldStep := step),
                  step, reason);
    }
  }

  lemma DeactivateKeeps(b: Book, p: nat, step: int, compressed: Fields, preserve: Option<set<string>>, reason: string)
    requires Inv(b)
    ensures Inv(Deactivated(b, p, step, compressed, preserve, reason).0)
  {
    assert Orderly(b, p);
    if p in b.members && b.members[p].level == Active {
      var before := b.members[p];
      var kept := Compressed(before, compressed, if preserve.Some? then preserve.value else PRESERVED);
      CommitKeeps(b, before, before.(level := Materialized, persistent := kept, active := map[],
                                     compressed := compressed,
                                     version := before.version + 1, worldStep := step), step, reason);
    }
  }

  lemma NextKeeps(b: Book, op: Op)
    requires Inv(b)
    ensures Inv(Next(b, op))
  {
    match op
    case Register(p, profile) => RegisterKeeps(b, p, profile);
    case Materialize(p, given, persistent, step, target, reason) =>
      MaterializeKeeps(b, p, given, persistent, step, target, reason);
    case Activate(p, active, step, reason) => ActivateKeeps(b, p, active, step, reason);
    case Deactivate(p, step, compressed, preserve, reason) => DeactivateKeeps(b, p, step, compressed, preserve, reason);
  }

  /** In every run each persona's transitions form a legal chain whose end is the member as it stands. */
  lemma {:induction false} RanKeeps(b: Book, ops: seq<Op>)
    requires Inv(b)
    ensures Inv(Ran(b, ops))
    decreases |ops|
  {
    if ops != [] {
      NextKeeps(b, ops[0]);
      RanKeeps(Next(b, ops[0]), ops[1..]);
    }
  }

  lemma EmptyInv(place: Option<(nat, nat)>)
    ensures Inv(Book(place, map[], []))
  {
    forall p ensures Orderly(Book(place, map[], []), p) { assert Own([], p) == []; }
  }

  /** From an empty book, with or without a place for the history: in every run every persona's record is in order. */
  lemma EveryRunOrderly(place: Option<(nat, nat)>, ops: seq<Op>, p: nat)
    ensures var b := Ran(Book(place, map[], []), ops);
            Orderly(b, p) && forall i :: 0 <= i < |b.history| ==> b.history[i].sequence == i + 1
  {
    EmptyInv(place);
    RanKeeps(Book(place, map[], []), ops);
  }

  /** Once materialized, a persona never becomes statistical again, and no key of its persistent state disappears. */
  lemma {:induction false} KeysStay(b: Book, ops: seq<Op>, p: nat)
    requires Inv(b) && p in b.members && b.members[p].level != Statistical
    ensures p in Ran(b, ops).members && Ran(b, ops).members[p].level != Statistical
    ensures b.members[p].persistent.Keys <= Ran(b, ops).members[p].persistent.Keys
    decreases |ops|
  {
    if ops != [] {
      NextKeeps(b, ops[0]);
      StepKeepsKeys(b, ops[0], p);
      KeysStay(Next(b, ops[0]), ops[1..], p);
    }
  }

  lemma StepKeepsKeys(b: Book, op: Op, p: nat)
    requires Inv(b) && p in b.members && b.members[p].level != Statistical
    ensures p in Next(b, op).members && Next(b, op).members[p].level != Statistical
    ensures b.members[p].persistent.Keys <= Next(b, op).members[p].persistent.Keys
  {
    assert op.persona in b.members ==> Orderly(b, op.persona);
  }

  /**
   * What is left of an active persona: a compressed field as compressed, otherwise a preserved field as it was active,
   * otherwise the field as it was kept before; nothing else.
   */
  lemma DeactivationKeeps(b: Book, p: nat, step: int, compressed: Fields, preserve: Option<set<string>>, reason: string,
                          field: string)
    requires Deactivated(b, p, step, compressed, preserve, reason).1.Ok?
    ensures p in b.members
    ensures var before := b.members[p];
            var after := Deactivated(b, p, step, compressed, preserve, reason).1.value;
            var preserved := if preserve.Some? then preserve.value
                             else {"beliefs", "memories", "relationships", "finances", "history"};
            && Deactivated(b, p, step, compressed, preserve, reason).0.members == b.members[before.persona := after]
            && (field in after.persistent <==>
                  field in compressed || (field in preserved && field in before.active) || field in before.persistent)
            && (field in after.persistent ==>
                  after.persistent[field] ==
                    if field in compressed then compressed[field]
                    else if field in preserved && field in before.active then before.active[field]
                    else before.persistent[field])
  {
  }

  /** The history only grows: what was recorded stays recorded, in place. */
  lemma {:induction false} HistoryGrows(b: Book, ops: seq<Op>)
    ensures b.history <= Ran(b, ops).history
    decreases |ops|
  {
    if ops != [] { HistoryGrows(Next(b, ops[0]), ops[1..]); }
  }

  /** A persona is materialized in the world and branch asked for, or else in the book's own; in both or in neither. */
  lemma MaterializedPlace(b: Book, p: nat, given: Option<Fields>, persistent: Fields, step: int, target: Target,
                          reason: string)
    requires MaterializedIn(b, p, given, persistent, step, target, reason).1.Ok?
    ensures var m := MaterializedIn(b, p, given, persistent, step, target, reason).1.value;
            && m.level == Materialized && m.persistent == persistent && m.worldStep == step
            && (m.place.Some? <==> (target.world.Some? || b.place.Some?))
            && (m.place.Some? <==> (target.branch.Some? || b.place.Some?))
            && (m.place.Some? ==>
                  && m.place.value.0 == (if target.world.Some? then target.world.value else b.place.value.0)
                  && m.place.value.1 == (if target.branch.Some? then target.branch.value else b.place.value.1))
  {
  }

  /** A persona registered before is left as it is, and accepted again only with the profile it has. */
  lemma RegisteredAgain(b: Book, p: nat, profile: Fields)
    requires p in b.members
    ensures Registered(b, p, profile).0 == b
    ensures Registered(b, p, profile).1 ==
            if profile == b.members[p].profile then Ok(b.members[p]) else Err(ProfileDiffers)
  {
  }

  lemma StepKeepsProfile(b: Book, op: Op, p: nat)
    requires Inv(b) && p in b.members
    ensures p in Next(b, op).members && Next(b, op).members[p].profile == b.members[p].profile
  {
    assert op.persona in b.members ==> Orderly(b, op.persona);
  }

  /** In every run a persona keeps the profile it was registered with. */
  lemma {:induction false} ProfileStays(b: Book, ops: seq<Op>, p: nat)
    requires Inv(b) && p in b.members
    ensures p in Ran(b, ops).members && Ran(b, ops).members[p].profile == b.members[p].profile
    decreases |ops|
  {
    if ops != [] {
      NextKeeps(b, ops[0]);
      StepKeepsProfile(b, ops[0], p);
      ProfileStays(Next(b, ops[0]), ops[1..], p);
    }
  }

  lemma {:induction false} OwnMembers(history: seq<Transition>, p: nat, t: Transition)
    ensures t in Own(history, p) <==> t in history && t.persona == p
  {
    if history != [] {
      var front := history[..|history| - 1];
      OwnMembers(front, p, t);
      assert history == front + [history[|history| - 1]];
    }
  }

  lemma LastIsLatest(own: seq<Transition>, t: Transition)
    requires Chained(own) && t in own
    ensures t.worldStep <= own[|own| - 1].worldStep
  {
    var i :| 0 <= i < |own| && own[i] == t;
    if i < |own| - 1 { assert own[i].worldStep <= own[|own| - 1].worldStep; }
  }

  /** A transition is accepted exactly if its step is not negative and no recorded one of the persona is later. */
  lemma AcceptedIff(b: Book, before: Member, after: Member, step: int, reason: string)
    requires Inv(b)
    ensures Committed(b, before, after, step, reason).1.Ok? <==>
            step >= 0 && forall t :: t in b.history && t.persona == before.persona ==> t.worldStep <= step
  {
    var own := Own(b.history, before.persona);
    assert Orderly(b, before.persona);
    forall t | t in b.history && t.persona == before.persona
      ensures own != [] && t.worldStep <= own[|own| - 1].worldStep
    {
      OwnMembers(b.history, before.persona, t);
      LastIsLatest(own, t);
    }
    if own != [] { OwnMembers(b.history, before.persona, own[|own| - 1]); }
  }
}
