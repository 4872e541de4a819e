/**
 * What the projected minds are worth: serial histories when no save is based on an outdated copy, and not otherwise.
 */
module ProjectorMinds {
  import opened Wrappers
  import opened TextSets
  import opened Beliefs
  import opened BeliefRuns
  import opened Projector

  // A stored mind in good order, all of it derived from stored observations.
  ghost predicate ShelfOk(name: Naming, shelf: Shelf, stored: set<nat>) {
    && (forall id :: id in shelf ==> shelf[id].id == id)
    && Orderly(Listing(shelf)) && NamedFrom(name, Listing(shelf), stored)
  }

  ghost predicate MindsOk(name: Naming, s: State) {
    forall o :: ShelfOk(name, ShelfOf(s, o), StoredOf(s, o))
  }

  // A decision is taken on the mind as it is now.
  predicate Timely(s: State, step: Step) {
    step.Decide? && Can(s, step) ==>
      var o := GrantAt(s, step.worker).observer;
      s.jobs[step.worker].loaded.value == Snapshot(ShelfOf(s, o), StoredOf(s, o))
  }

  ghost predicate AllTimely(name: Naming, s: State, steps: seq<Step>)
    decreases |steps|
  {
    steps != [] ==>
      Timely(s, steps[0]) && AllTimely(name, if Can(s, steps[0]) then Next(name, s, steps[0]) else s, steps[1..])
  }

  // What a step writes into an observer's mind.
  function Written(name: Naming, s: State, step: Step, o: nat): seq<Report>
    requires Can(s, step)
  {
    if !step.Decide? then []
    else
      var g := GrantAt(s, step.worker);
      if g.observer == o && OutcomeOf(name, g, s.jobs[step.worker].loaded.value).Write?
      then [Report(g.observation, g.claims.value)] else []
  }

  function WrittenAll(name: Naming, s: State, steps: seq<Step>, o: nat): seq<Report>
    decreases |steps|
  {
    if steps == [] then []
    else if Can(s, steps[0]) then
      Written(name, s, steps[0], o) + WrittenAll(name, Next(name, s, steps[0]), steps[1..], o)
    else WrittenAll(name, s, steps[1..], o)
  }

  /* ---- Listing and indexing are inverse ---- */

  lemma ListingMembers(shelf: Shelf)
    requires forall id :: id in shelf ==> shelf[id].id == id
    ensures forall b: Belief :: b in Listing(shelf) <==> b.id in shelf && shelf[b.id] == b
    ensures forall i, j :: 0 <= i < j < |Listing(shelf)| ==> Listing(shelf)[i].id != Listing(shelf)[j].id
  {
    var ids := SortedNames(shelf.Keys);
    forall i | 0 <= i < |ids| ensures ids[i] in shelf { assert ids[i] in Names(ids); }
    ListedById(shelf, Listing(shelf));
  }

  lemma IndexedListing(shelf: Shelf)
    requires forall id :: id in shelf ==> shelf[id].id == id
    ensures ById(Listing(shelf)) == shelf
  {
    var listed := Listing(shelf);
    ListingMembers(shelf);
    ByIdMembers(listed);
    forall id | id in shelf ensures id in ById(listed) && ById(listed)[id] == shelf[id] {
      assert shelf[id] in listed;
    }
    forall id | id in ById(listed) ensures id in shelf { assert ById(listed)[id] in listed; }
  }

  lemma ListedProjection(r: Revision)
    requires Orderly(Projected(r))
    ensures Listing(ById(Projected(r))) == Projected(r)
    ensures forall id :: id in ById(Projected(r)) ==> ById(Projected(r))[id].id == id
  {
    var byId := ById(r.active + r.superseded);
    IdentifiersMatch(r.active + r.superseded);
    assert Projected(r) == Listing(byId);
    IndexedListing(byId);
  }

  lemma {:induction false} IdentifiersMatch(beliefs: seq<Belief>)
    ensures forall id :: id in ById(beliefs) ==> ById(beliefs)[id].id == id
  {
    if beliefs != [] { IdentifiersMatch(beliefs[..|beliefs| - 1]); }
  }

  lemma EverythingStaysListed(name: Naming, shelf: Shelf, stored: set<nat>, o: Observation, claims: seq<Claim>)
    requires Injective(name) && ShelfOk(name, shelf, stored) && o.id !in stored
    ensures shelf.Keys <= ById(Observed(name, Listing(shelf), o, claims)).Keys
  {
    var mind := Listing(shelf);
    var projected := Observed(name, mind, o, claims);
    ListingMembers(shelf);
    forall id | id in shelf ensures id in ById(projected) {
      ObservationKeeps(name, mind, o, claims, stored, shelf[id]);
      var later :| later in projected && Becomes(shelf[id], later);
      UniqueInMind(projected);
      ByIdMembers(projected);
    }
  }

  // Saving a projection over the mind it was computed from replaces that mind.
  lemma SaveReplaces(name: Naming, shelf: Shelf, stored: set<nat>, o: Observation, claims: seq<Claim>)
    requires Injective(name) && ShelfOk(name, shelf, stored) && o.id !in stored && DistinctClaims(claims)
    ensures var projected := Observed(name, Listing(shelf), o, claims);
            && shelf + ById(projected) == ById(projected)
            && Listing(ById(projected)) == projected
            && ShelfOk(name, ById(projected), stored + {o.id})
  {
    var mind := Listing(shelf);
    StandingAfter(name, mind, o, claims, stored);
    ObservationNames(name, mind, o, claims, stored);
    ListedProjection(Revised(name, o, claims, mind).value);
    EverythingStaysListed(name, shelf, stored, o, claims);
    Overlay(shelf, ById(Observed(name, mind, o, claims)));
  }

  lemma Overlay(below: Shelf, above: Shelf)
    requires below.Keys <= above.Keys
    ensures below + above == above
  {
  }

  /* ---- Serial runs ---- */

  lemma {:induction false} LivedConcat(name: Naming, mind: seq<Belief>, a: seq<Report>, b: seq<Report>)
    ensures Lived(name, mind, a + b) == Lived(name, Lived(name, mind, a), b)
    decreases |a|
  {
    if a == [] {
      assert a + b == b;
    } else {
      assert (a + b)[0] == a[0] && (a + b)[1..] == a[1..] + b;
      LivedConcat(name, Observed(name, mind, a[0].observation, a[0].claims), a[1..], b);
    }
  }

  lemma LivedOne(name: Naming, mind: seq<Belief>, r: Report)
    ensures Lived(name, mind, [r]) == Observed(name, mind, r.observation, r.claims)
  {
    assert [r][1..] == [];
  }

  lemma UntouchedMind(name: Naming, s: State, step: Step, o: nat)
    requires Can(s, step) && Written(name, s, step, o) == []
    ensures var t := Next(name, s, step); ShelfOf(t, o) == ShelfOf(s, o) && StoredOf(t, o) == StoredOf(s, o)
  {
  }

  lemma WrittenMind(name: Naming, s: State, step: Step, o: nat)
    requires Injective(name) && ShelfOk(name, ShelfOf(s, o), StoredOf(s, o)) && Timely(s, step)
    requires Can(s, step) && Written(name, s, step, o) != []
    ensures var t := Next(name, s, step);
            && Listing(ShelfOf(t, o)) == Lived(name, Listing(ShelfOf(s, o)), Written(name, s, step, o))
            && ShelfOk(name, ShelfOf(t, o), StoredOf(t, o))
            && Written(name, s, step, o)[0].observation.id in StoredOf(t, o) - StoredOf(s, o)
            && StoredOf(s, o) <= StoredOf(t, o)
  {
    var g := GrantAt(s, step.worker);
    SaveReplaces(name, ShelfOf(s, o), StoredOf(s, o), g.observation, g.claims.value);
    LivedOne(name, Listing(ShelfOf(s, o)), Report(g.observation, g.claims.value));
  }

  lemma TimelyStep(name: Naming, s: State, step: Step, o: nat)
    requires Injective(name) && ShelfOk(name, ShelfOf(s, o), StoredOf(s, o)) && Timely(s, step) && Can(s, step)
    ensures var t := Next(name, s, step);
            && Listing(ShelfOf(t, o)) == Lived(name, Listing(ShelfOf(s, o)), Written(name, s, step, o))
            && ShelfOk(name, ShelfOf(t, o), StoredOf(t, o))
  {
    if Written(name, s, step, o) == [] { UntouchedMind(name, s, step, o); } else { WrittenMind(name, s, step, o); }
  }

  /**
   * When every decision is taken on the mind as it is, an interleaved run gives each observer exactly the mind that
   * living through the written observations, one after the other, gives; so nothing is lost and keys stay single.
   */
  lemma {:induction false} TimelyRunIsSerial(name: Naming, s: State, steps: seq<Step>, o: nat)
    requires Injective(name) && ShelfOk(name, ShelfOf(s, o), StoredOf(s, o)) && AllTimely(name, s, steps)
    ensures var t := Ran(name, s, steps);
            && Listing(ShelfOf(t, o)) == Lived(name, Listing(ShelfOf(s, o)), WrittenAll(name, s, steps, o))
            && ShelfOk(name, ShelfOf(t, o), StoredOf(t, o))
    decreases |steps|
  {
    if steps != [] {
      if Can(s, steps[0]) {
        var t := Next(name, s, steps[0]);
        TimelyStep(name, s, steps[0], o);
        TimelyRunIsSerial(name, t, steps[1..], o);
        LivedConcat(name, Listing(ShelfOf(s, o)), Written(name, s, steps[0], o), WrittenAll(name, t, steps[1..], o));
      } else {
        TimelyRunIsSerial(name, s, steps[1..], o);
      }
    }
  }

  lemma OneMoreIsNew(r: Report, rest: seq<Report>, before: set<nat>, after: set<nat>)
    requires NewObservations(rest, after) && before <= after && r.observation.id in after - before
    ensures NewObservations([r] + rest, before)
  {
    var all := [r] + rest;
    forall i | 0 <= i < |all| ensures all[i].observation.id !in before {
      if i > 0 { assert all[i] == rest[i - 1]; }
    }
    forall i, j | 0 <= i < j < |all| ensures all[i].observation.id != all[j].observation.id {
      assert all[j] == rest[j - 1];
      if i > 0 { assert all[i] == rest[i - 1]; }
    }
  }

  /** In such a run no observation is written twice: each written one was not stored, and is stored from then on. */
  lemma {:induction false} WrittenOnce(name: Naming, s: State, steps: seq<Step>, o: nat)
    requires Injective(name) && ShelfOk(name, ShelfOf(s, o), StoredOf(s, o)) && AllTimely(name, s, steps)
    ensures NewObservations(WrittenAll(name, s, steps, o), StoredOf(s, o))
    decreases |steps|
  {
    if steps != [] {
      if Can(s, steps[0]) {
        var t := Next(name, s, steps[0]);
        TimelyStep(name, s, steps[0], o);
        WrittenOnce(name, t, steps[1..], o);
        var rest := WrittenAll(name, t, steps[1..], o);
        if Written(name, s, steps[0], o) == [] {
          UntouchedMind(name, s, steps[0], o);
          assert [] + rest == rest;
        } else {
          WrittenMind(name, s, steps[0], o);
          OneMoreIsNew(Written(name, s, steps[0], o)[0], rest, StoredOf(s, o), StoredOf(t, o));
        }
      } else {
        WrittenOnce(name, s, steps[1..], o);
      }
    }
  }

  /* ---- Races ---- */

  lemma OneClaim(name: Naming, o: Observation, claims: seq<Claim>)
    requires |claims| == 1
    ensures DistinctClaims(claims) && Sorted(claims) == claims
    ensures var b := Formed(name, o, claims[0]);
            AfterAll(name, o, StandingOf([]), Sorted(claims)) == Standing(map[b.key := b], [])
  {
    SortedClaims(claims);
    assert |Sorted(claims)| == 1 && Sorted(claims)[0] in Sorted(claims);
    assert claims[..0] == [] && AfterAll(name, o, StandingOf([]), []) == Standing(map[], []);
  }

  lemma FirstMembers(name: Naming, o: Observation, claims: seq<Claim>, x: Belief)
    requires Injective(name) && |claims| == 1
    ensures x in Observed(name, [], o, claims) <==> x == Formed(name, o, claims[0])
  {
    OneClaim(name, o, claims);
    StandingAfter(name, [], o, claims, {});
    var b := Formed(name, o, claims[0]);
    assert x in Observed(name, [], o, claims) <==> In(x, Standing(map[b.key := b], []));
  }

  lemma SoleMember(beliefs: seq<Belief>, b: Belief)
    requires forall x :: x in beliefs <==> x == b
    ensures ById(beliefs) == map[b.id := b]
  {
    ByIdMembers(beliefs);
    assert b in beliefs;
  }

  lemma FirstBelief(name: Naming, o: Observation, claims: seq<Claim>)
    requires Injective(name) && |claims| == 1
    ensures var b := Formed(name, o, claims[0]); ById(Observed(name, [], o, claims)) == map[b.id := b]
  {
    forall x ensures x in Observed(name, [], o, claims) <==> x == Formed(name, o, claims[0]) {
      FirstMembers(name, o, claims, x);
    }
    SoleMember(Observed(name, [], o, claims), Formed(name, o, claims[0]));
  }

  ghost predicate TwoInForce(mind: seq<Belief>, key: string) {
    exists a, b :: a != b && InForce(a, mind, key) && InForce(b, mind, key)
  }

  lemma TwoOnTheShelf(a: Belief, b: Belief)
    requires a.id != b.id && a.key == b.key && a.contradictedBy.None? && b.contradictedBy.None?
    ensures TwoInForce(Listing(map[a.id := a] + map[b.id := b]), a.key)
  {
    var shelf: Shelf := map[a.id := a] + map[b.id := b];
    ListingMembers(shelf);
    assert InForce(a, Listing(shelf), a.key) && InForce(b, Listing(shelf), a.key);
  }

  // A worker about to save a single claim into a mind it loaded while it was empty.
  predicate AboutToSave(s: State, w: nat, o: nat, key: string, value: Value) {
    && AtGrant(s, w) && s.jobs[w].loaded == Some(Snapshot(map[], {}))
    && var g := GrantAt(s, w);
    && g.matches && g.observer == o && g.claims.Some? && |g.claims.value| == 1
    && g.claims.value[0].key == key && g.claims.value[0].value == value
  }

  function Saves(name: Naming, s: State, w: nat): Belief
    requires AtGrant(s, w) && GrantAt(s, w).claims.Some? && |GrantAt(s, w).claims.value| == 1
  {
    Formed(name, GrantAt(s, w).observation, GrantAt(s, w).claims.value[0])
  }

  lemma StillAboutToSave(name: Naming, s: State, t: State, w: nat, o: nat, key: string, value: Value)
    requires AboutToSave(s, w, o, key, value) && t.rows == s.rows && w in t.jobs && t.jobs[w] == s.jobs[w]
    ensures AboutToSave(t, w, o, key, value) && Saves(name, t, w) == Saves(name, s, w)
  {
  }

  lemma SavesFirstBelief(name: Naming, s: State, w: nat, o: nat, key: string, value: Value)
    requires Injective(name) && AboutToSave(s, w, o, key, value)
    ensures var b := Saves(name, s, w);
            var t := Next(name, s, Decide(w));
            && b.key == key && b.value == value && b.contradictedBy.None?
            && b.id == name(Seed(b.entity, b.source, key, value))
            && ShelfOf(t, o) == ShelfOf(s, o) + map[b.id := b] && t.rows == s.rows
            && forall v :: v != w ==> (v in t.jobs <==> v in s.jobs) && (v in s.jobs ==> t.jobs[v] == s.jobs[v])
  {
    var g := GrantAt(s, w);
    FirstBelief(name, g.observation, g.claims.value);
    OneClaim(name, g.observation, g.claims.value);
    assert Listing(map[]) == [];
  }

  /**
   * Two workers that loaded the same empty mind and save claims of different values under one key leave the mind with
   * two beliefs in force under it: the second save does not see the first.
   */
  lemma RacingSavesLeaveTwo(name: Naming, s: State, first: nat, second: nat, o: nat, key: string, one: Value,
                            two: Value)
    requires Injective(name) && first != second && one != two && ShelfOf(s, o) == map[]
    requires AboutToSave(s, first, o, key, one) && AboutToSave(s, second, o, key, two)
    ensures var t := Next(name, s, Decide(first));
            Can(t, Decide(second)) && TwoInForce(Listing(ShelfOf(Next(name, t, Decide(second)), o)), key)
  {
    var a, b := Saves(name, s, first), Saves(name, s, second);
    SavesFirstBelief(name, s, first, o, key, one);
    var t := Next(name, s, Decide(first));
    StillAboutToSave(name, s, t, second, o, key, two);
    SavesFirstBelief(name, t, second, o, key, two);
    assert map[] + map[a.id := a] == map[a.id := a];
    TwoOnTheShelf(a, b);
  }
}
