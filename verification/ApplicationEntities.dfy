/** What entity bookkeeping, trials and direct writes leave behind, record by record. */
module ApplicationEntities {
  import opened Wrappers
  import opened KernelState
  import opened CommandBus
  import opened Application
  import opened ApplicationRuns

  /* ---- Mutations of a committed command ---- */

  predicate Names(p: Proposal, m: Mutation, key: (nat, nat)) {
    key.0 == p.branch && key.1 == m.entity
  }

  // The record has the mutation's contents, in the proposal's world and branch.
  predicate RecordOfMutation(p: Proposal, m: Mutation, e: EntityRecord) {
    && e.entity == m.entity && e.world == p.world && e.branch == p.branch && e.controller == m.controller
    && e.name == m.name && e.entityType == m.entityType
    && e.publicState == m.publicState && e.secretState == m.secretState
  }

  // How one entity's record comes out of the bookkeeping.
  ghost predicate EntryOk(before: map<(nat, nat), EntityRecord>, after: map<(nat, nat), EntityRecord>, p: Proposal,
                          mutations: seq<Mutation>, key: (nat, nat)) {
    if key in before then key in after && after[key] == before[key]
    else
      && (key in after <==> exists i :: 0 <= i < |mutations| && Names(p, mutations[i], key))
      && forall i :: 0 <= i < |mutations| && Names(p, mutations[i], key) ==>
           key in after && RecordOfMutation(p, mutations[i], after[key])
  }

  lemma {:induction false} EntriesExact(roster: Roster, p: Proposal, mutations: seq<Mutation>, key: (nat, nat))
    requires Enterable(roster, p, mutations)
    ensures EntryOk(roster.entities, Recorded(roster, p, mutations).0.entities, p, mutations, key)
    decreases |mutations|
  {
    if mutations != [] {
      var m, rest := mutations[0], mutations[1..];
      var next := FirstEntered(roster, p, mutations);
      EntriesExact(next, p, rest, key);
      forall i | 0 < i < |mutations| ensures mutations[i] == rest[i - 1] {}
      FirstEntry(roster, next, Recorded(next, p, rest).0, p, mutations, key);
    }
  }

  lemma FirstEntry(roster: Roster, next: Roster, after: Roster, p: Proposal, mutations: seq<Mutation>, key: (nat, nat))
    requires mutations != [] && Enterable(roster, p, mutations)
    requires next.entities == roster.entities[(p.branch, mutations[0].entity) := RecordFor(p, mutations[0])]
    requires EntryOk(next.entities, after.entities, p, mutations[1..], key)
    ensures EntryOk(roster.entities, after.entities, p, mutations, key)
  {
    var m, rest := mutations[0], mutations[1..];
    if key !in roster.entities {
      if Names(p, m, key) {
        forall i | 0 <= i < |mutations| && Names(p, mutations[i], key)
          ensures RecordOfMutation(p, mutations[i], after.entities[key])
        {
          assert RecordFor(p, mutations[i]) == RecordFor(p, m);
        }
      } else {
        if i :| 0 <= i < |mutations| && Names(p, mutations[i], key) { assert rest[i - 1] == mutations[i]; }
        if i :| 0 <= i < |rest| && Names(p, rest[i], key) { assert mutations[i + 1] == rest[i]; }
        forall i | 0 <= i < |mutations| && Names(p, mutations[i], key)
          ensures key in after.entities && RecordOfMutation(p, mutations[i], after.entities[key])
        {
          assert rest[i - 1] == mutations[i];
        }
      }
    }
  }

  lemma FirstEntered(roster: Roster, p: Proposal, mutations: seq<Mutation>) returns (next: Roster)
    requires mutations != [] && Enterable(roster, p, mutations)
    ensures Enterable(next, p, mutations[1..]) && Recorded(roster, p, mutations) == Recorded(next, p, mutations[1..])
    ensures next.entities == roster.entities[(p.branch, mutations[0].entity) := RecordFor(p, mutations[0])]
    ensures next.authorities == Controlling(roster, p, mutations[0])
  {
    var m := mutations[0];
    var key := (p.branch, m.entity);
    next := Roster(roster.entities[key := RecordFor(p, m)], Controlling(roster, p, m));
    assert key in roster.entities ==> next == roster;
    EnterableAfterFirst(roster, p, mutations, next);
  }

  function Controlling(roster: Roster, p: Proposal, m: Mutation): map<(nat, nat), Actor> {
    if (p.branch, m.entity) in roster.entities || m.controller.None?
       || (p.world, m.controller.value) !in roster.authorities
    then roster.authorities
    else Control(roster.authorities, p.world, m.controller.value, m.entity)
  }

  // The entities new on the branch whose control a command gives to an actor.
  ghost function Given(roster: Roster, p: Proposal, mutations: seq<Mutation>, who: (nat, nat)): set<nat> {
    set i: nat | i < |mutations| && mutations[i].controller == Some(who.1) && who.0 == p.world
                 && (p.branch, mutations[i].entity) !in roster.entities :: mutations[i].entity
  }

  lemma GivenFirst(roster: Roster, next: Roster, p: Proposal, mutations: seq<Mutation>, who: (nat, nat))
    requires mutations != [] && Enterable(roster, p, mutations)
    requires next.entities == roster.entities[(p.branch, mutations[0].entity) := RecordFor(p, mutations[0])]
    ensures var m := mutations[0];
            Given(roster, p, mutations, who) ==
            Given(next, p, mutations[1..], who)
            + if m.controller == Some(who.1) && who.0 == p.world && (p.branch, m.entity) !in roster.entities
              then {m.entity} else {}
  {
    var m, rest := mutations[0], mutations[1..];
    forall x | x in Given(next, p, rest, who) ensures x in Given(roster, p, mutations, who) {
      var i: nat :| i < |rest| && rest[i].entity == x && rest[i].controller == Some(who.1) && who.0 == p.world
                    && (p.branch, x) !in next.entities;
      assert mutations[i + 1] == rest[i];
    }
    forall x | x in Given(roster, p, mutations, who) && x != m.entity ensures x in Given(next, p, rest, who) {
      var i: nat :| i < |mutations| && mutations[i].entity == x && mutations[i].controller == Some(who.1)
                    && who.0 == p.world && (p.branch, x) !in roster.entities;
      assert rest[i - 1] == mutations[i];
    }
    if m.entity in Given(roster, p, mutations, who) {
      var i: nat :| i < |mutations| && mutations[i].entity == m.entity && mutations[i].controller == Some(who.1)
                    && who.0 == p.world && (p.branch, m.entity) !in roster.entities;
      assert RecordFor(p, mutations[i]) == RecordFor(p, m);
    }
    assert m == mutations[0];
  }

  /** Control of exactly the new entities a command names an actor for is added to what the actor controlled. */
  lemma {:induction false} ControlExact(roster: Roster, p: Proposal, mutations: seq<Mutation>, who: (nat, nat))
    requires Enterable(roster, p, mutations)
    ensures var after := Recorded(roster, p, mutations).0.authorities;
            && (who in after <==> who in roster.authorities)
            && (who in after ==>
                  && after[who].controlled == roster.authorities[who].controlled + Given(roster, p, mutations, who)
                  && after[who].id == roster.authorities[who].id
                  && after[who].capabilities == roster.authorities[who].capabilities)
    decreases |mutations|
  {
    if mutations != [] {
      var next := FirstEntered(roster, p, mutations);
      GivenFirst(roster, next, p, mutations, who);
      ControlExact(next, p, mutations[1..], who);
    } else {
      assert Given(roster, p, mutations, who) == {};
    }
  }

  /**
   * After a command that is logged, every entity it names that was new on its branch has exactly the record it asked
   * for; all other entities stay.
   */
  lemma LoggedEntities(app: App, p: Proposal, receipt: Receipt, key: (nat, nat))
    requires receipt.event.id !in app.events && Logged(app, p, receipt).1.None?
    ensures EntryOk(app.entities, Logged(app, p, receipt).0.entities, p, Entering(receipt), key)
    ensures receipt.result.accepted ==> Entering(receipt) == receipt.result.mutations
    ensures !receipt.result.accepted ==> Entering(receipt) == []
  {
    RecordedIff(Roster(app.entities, app.authorities), p, Entering(receipt));
    EntriesExact(Roster(app.entities, app.authorities), p, Entering(receipt), key);
  }

  /* ---- What a trial inherits ---- */

  /**
   * A trial gets a copy of each canonical entity it does not have, under its own branch, with the projected state of
   * the snapshot it was opened on where there is one; what it had, and all other branches, stay.
   */
  lemma InheritedExact(entities: map<(nat, nat), EntityRecord>, canonical: nat, b: Branch, key: (nat, nat))
    ensures var after := Inherited(entities, canonical, b);
            && (key in entities ==> key in after && after[key] == entities[key])
            && (key !in entities ==>
                  && (key in after <==> key.0 == b.id && (canonical, key.1) in entities)
                  && (key in after ==>
                        && (canonical, key.1) in entities
                        && var e, copy := entities[(canonical, key.1)], after[key];
                        && copy.branch == b.id && copy.entity == e.entity && copy.world == e.world
                        && copy.name == e.name && copy.entityType == e.entityType && copy.controller == e.controller
                        && copy.secretState == e.secretState
                        && PublicPart(b, e, copy.publicState)))
  {
    if key.0 == b.id && key !in entities && (canonical, key.1) in entities {
      assert (canonical, key.1).1 in Missing(entities, canonical, b);
    }
  }

  // The fields projected for the entity if the branch has any, else those of its record, without name and type.
  ghost predicate PublicPart(b: Branch, e: EntityRecord, fields: Fields) {
    var shown := if ENTITIES in b.projections && Entity(e.entity) in b.projections[ENTITIES]
                 then b.projections[ENTITIES][Entity(e.entity)] else e.publicState;
    && (forall f :: f in fields <==> f in shown && f != "name" && f != "entity_type")
    && forall f :: f in fields ==> fields[f] == shown[f]
  }

  /* ---- Direct writes ---- */

  /** A directly created entity gets its three records, in the three projections; every other record stays. */
  lemma WrittenExact(p: Projections, entity: nat, projected: Fields, position: Fields, profile: Fields, name: string,
                     key: Key)
    ensures var q := Written(p, entity, projected, position, profile);
            && RecordAt(q, "tabletop.entities", Entity(entity)) == Some(projected)
            && RecordAt(q, "tabletop.spatial.positions", Entity(entity)) == Some(position)
            && RecordAt(q, "tabletop.sensory_profiles", Entity(entity)) == Some(profile)
            && (key != Entity(entity)
                || name !in {"tabletop.entities", "tabletop.spatial.positions", "tabletop.sensory_profiles"} ==>
                  RecordAt(q, name, key) == RecordAt(p, name, key))
  {
    NamesApart();
    var a := Put(p, ENTITIES, entity, projected);
    var b := Put(a, POSITIONS, entity, position);
    forall n: string, k: Key
      ensures RecordAt(Written(p, entity, projected, position, profile), n, k) ==
              if k != Entity(entity) then RecordAt(p, n, k)
              else if n == PROFILES then Some(profile)
              else if n == POSITIONS then Some(position)
              else if n == ENTITIES then Some(projected)
              else RecordAt(p, n, k)
    {
      PutAt(p, ENTITIES, entity, projected, n, k);
      PutAt(a, POSITIONS, entity, position, n, k);
      PutAt(b, PROFILES, entity, profile, n, k);
    }
  }

  lemma PutAt(p: Projections, name: string, entity: nat, record: Fields, n: string, k: Key)
    ensures RecordAt(Put(p, name, entity, record), n, k) ==
            if n == name && k == Entity(entity) then Some(record) else RecordAt(p, n, k)
  {
  }

  function RecordAt(p: Projections, name: string, key: Key): Option<Fields> {
    if name in p && key in p[name] then Some(p[name][key]) else None
  }

  lemma NamesApart()
    ensures ENTITIES != POSITIONS && POSITIONS != PROFILES && PROFILES != ENTITIES
  {
    assert |ENTITIES| == 17 && |POSITIONS| == 26 && |PROFILES| == 25;
  }
}
