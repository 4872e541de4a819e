/** Runs of belief revision: nothing is lost, one active belief per key, contradicted beliefs frozen. */
module BeliefRuns {
  import opened Wrappers
  import opened Ordering
  import opened TextSets
  import opened Beliefs

  // A mind's beliefs: one per identifier, and at most one in force per key.
  ghost predicate Orderly(mind: seq<Belief>) {
    && (forall i, j :: 0 <= i < j < |mind| ==> mind[i].id != mind[j].id)
    && (forall i, j :: 0 <= i < j < |mind| && mind[i].contradictedBy.None? && mind[j].contradictedBy.None? ==>
          mind[i].key != mind[j].key)
  }

  ghost predicate In(b: Belief, s: Standing) {
    (b.key in s.active && s.active[b.key] == b) || b in s.superseded
  }

  ghost predicate Sound(s: Standing) {
    && (forall k :: k in s.active ==> s.active[k].key == k && s.active[k].contradictedBy.None?)
    && (forall b :: b in s.superseded ==> b.contradictedBy.Some?)
    && (forall a, b :: In(a, s) && In(b, s) && a.id == b.id ==> a == b)
  }

  // What may become of a belief: in force it can gain confidence or be contradicted; contradicted it stays as it is.
  ghost predicate Becomes(b: Belief, later: Belief) {
    && (later.id, later.entity, later.key, later.value) == (b.id, b.entity, b.key, b.value)
    && b.confidence <= later.confidence
    && (b.contradictedBy.Some? ==> later == b)
  }

  ghost predicate Kept(b: Belief, s: Standing) {
    exists later :: In(later, s) && Becomes(b, later)
  }

  // No belief already carries an identifier this observation would give to a key still to come.
  ghost predicate Unused(name: Naming, o: Observation, s: Standing, keys: set<string>) {
    forall b, c: Claim :: In(b, s) && b.id == name(SeedOf(o, c)) ==> c.key in keys
  }

  /* ---- One claim ---- */

  lemma InAfter(name: Naming, o: Observation, s: Standing, c: Claim, b: Belief)
    requires Sound(s) && In(b, After(name, o, s, c))
    ensures || b == Asserted(name, o, c, s.active) || b in Displaced(o, c, s.active)
            || (In(b, s) && (b.contradictedBy.Some? || b.key != c.key))
  {
  }

  lemma AfterIsSound(name: Naming, o: Observation, s: Standing, c: Claim, keys: set<string>)
    requires Injective(name) && Sound(s) && Unused(name, o, s, keys) && c.key !in keys
    ensures Sound(After(name, o, s, c))
  {
    var t := After(name, o, s, c);
    forall a, b | In(a, t) && In(b, t) && a.id == b.id ensures a == b {
      InAfter(name, o, s, c, a);
      InAfter(name, o, s, c, b);
      if c.key in s.active { assert In(s.active[c.key], s); }
    }
  }

  lemma AfterUses(name: Naming, o: Observation, s: Standing, c: Claim, keys: set<string>)
    requires Injective(name) && Sound(s) && Unused(name, o, s, keys)
    ensures Unused(name, o, After(name, o, s, c), keys + {c.key})
  {
    var t := After(name, o, s, c);
    forall b, d: Claim | In(b, t) && b.id == name(SeedOf(o, d)) ensures d.key in keys + {c.key} {
      InAfter(name, o, s, c, b);
      if c.key in s.active { assert In(s.active[c.key], s); }
    }
  }

  lemma AfterKeeps(name: Naming, o: Observation, s: Standing, c: Claim, b: Belief)
    requires Sound(s) && In(b, s)
    ensures Kept(b, After(name, o, s, c))
  {
    var t := After(name, o, s, c);
    if b in s.superseded {
      assert In(b, t);
    } else if b.key != c.key {
      assert In(b, t);
    } else if b.value == c.value {
      assert In(Strengthened(b, o, c), t);
    } else {
      assert In(Contradicted(b, o), t);
    }
  }

  lemma BecomesTwice(a: Belief, b: Belief, c: Belief)
    requires Becomes(a, b) && Becomes(b, c)
    ensures Becomes(a, c)
  {
  }

  /* ---- All claims of an observation ---- */

  function KeysOf(claims: seq<Claim>): set<string> {
    set i | 0 <= i < |claims| :: claims[i].key
  }

  lemma FrontKeys(claims: seq<Claim>)
    requires claims != [] && DistinctClaims(claims)
    ensures var front, last := claims[..|claims| - 1], claims[|claims| - 1];
            DistinctClaims(front) && last.key !in KeysOf(front) && KeysOf(claims) == KeysOf(front) + {last.key}
  {
    var front, last := claims[..|claims| - 1], claims[|claims| - 1];
    forall k | k in KeysOf(claims) ensures k in KeysOf(front) + {last.key} {
      var i :| 0 <= i < |claims| && claims[i].key == k;
      if i < |front| { assert front[i].key == k; }
    }
    forall k | k in KeysOf(front) ensures k in KeysOf(claims) {
      var i :| 0 <= i < |front| && front[i].key == k;
      assert claims[i].key == k;
    }
  }

  lemma {:induction false} AfterAllIsSound(name: Naming, o: Observation, s: Standing, claims: seq<Claim>)
    requires Injective(name) && Sound(s) && Unused(name, o, s, {}) && DistinctClaims(claims)
    ensures Sound(AfterAll(name, o, s, claims)) && Unused(name, o, AfterAll(name, o, s, claims), KeysOf(claims))
  {
    if claims != [] {
      var front, last := claims[..|claims| - 1], claims[|claims| - 1];
      FrontKeys(claims);
      AfterAllIsSound(name, o, s, front);
      var t := AfterAll(name, o, s, front);
      AfterIsSound(name, o, t, last, KeysOf(front));
      AfterUses(name, o, t, last, KeysOf(front));
    }
  }

  lemma {:induction false} AfterAllKeeps(name: Naming, o: Observation, s: Standing, claims: seq<Claim>, b: Belief)
    requires Injective(name) && Sound(s) && Unused(name, o, s, {}) && DistinctClaims(claims)
    requires In(b, s)
    ensures Kept(b, AfterAll(name, o, s, claims))
  {
    if claims == [] {
      assert Becomes(b, b);
    } else {
      var front, last := claims[..|claims| - 1], claims[|claims| - 1];
      FrontKeys(claims);
      AfterAllIsSound(name, o, s, front);
      AfterAllKeeps(name, o, s, front, b);
      var t := AfterAll(name, o, s, front);
      var mid :| In(mid, t) && Becomes(b, mid);
      AfterKeeps(name, o, t, last, mid);
      var later :| In(later, After(name, o, t, last)) && Becomes(mid, later);
      BecomesTwice(b, mid, later);
    }
  }

  /** A key that no claim mentions keeps the belief in force. */
  lemma {:induction false} ActiveUnclaimed(name: Naming, o: Observation, s: Standing, claims: seq<Claim>, k: string)
    requires k !in KeysOf(claims)
    ensures var t := AfterAll(name, o, s, claims);
            (k in t.active <==> k in s.active) && (k in s.active ==> t.active[k] == s.active[k])
  {
    if claims != [] {
      assert claims[|claims| - 1].key in KeysOf(claims);
      var front := claims[..|claims| - 1];
      forall i | 0 <= i < |front| ensures front[i].key in KeysOf(claims) { assert front[i] == claims[i]; }
      ActiveUnclaimed(name, o, s, front, k);
    }
  }

  /** Each claim decides its own key, from the belief in force before the observation. */
  lemma {:induction false} ActiveClaimed(name: Naming, o: Observation, s: Standing, claims: seq<Claim>, i: nat)
    requires DistinctClaims(claims) && i < |claims|
    ensures var t := AfterAll(name, o, s, claims);
            claims[i].key in t.active && t.active[claims[i].key] == Asserted(name, o, claims[i], s.active)
  {
    var front := claims[..|claims| - 1];
    FrontKeys(claims);
    if i < |front| {
      ActiveClaimed(name, o, s, front, i);
    } else {
      ActiveUnclaimed(name, o, s, front, claims[i].key);
    }
  }

  /** The contradicted beliefs are the earlier ones and those in force whose key is claimed with another value. */
  lemma {:induction false} SupersededAfterAll(name: Naming, o: Observation, s: Standing, claims: seq<Claim>, b: Belief)
    requires DistinctClaims(claims)
    ensures b in AfterAll(name, o, s, claims).superseded
            <==> b in s.superseded || exists i :: 0 <= i < |claims| && b in Displaced(o, claims[i], s.active)
  {
    if claims != [] {
      var front, last := claims[..|claims| - 1], claims[|claims| - 1];
      FrontKeys(claims);
      SupersededAfterAll(name, o, s, front, b);
      ActiveUnclaimed(name, o, s, front, last.key);
      assert Displaced(o, last, AfterAll(name, o, s, front).active) == Displaced(o, last, s.active);
      forall i | 0 <= i < |front| ensures front[i] == claims[i] {}
    }
  }

  /* ---- From a listing and back ---- */

  lemma {:induction false} StandingMembers(mind: seq<Belief>)
    requires Orderly(mind)
    ensures forall b :: In(b, StandingOf(mind)) <==> b in mind
    ensures Sound(StandingOf(mind))
  {
    if mind != [] {
      var front, last := mind[..|mind| - 1], mind[|mind| - 1];
      StandingMembers(front);
      var s, t := StandingOf(front), StandingOf(mind);
      assert mind == front + [last];
      forall k | k in s.active && last.contradictedBy.None? ensures k != last.key { assert In(s.active[k], s); }
      forall b ensures In(b, t) <==> b in mind {
        assert In(b, t) <==> In(b, s) || b == last;
      }
      UniqueInMind(mind);
    }
  }

  lemma UniqueInMind(mind: seq<Belief>)
    requires Orderly(mind)
    ensures forall a, b :: a in mind && b in mind && a.id == b.id ==> a == b
  {
  }

  lemma {:induction false} ByIdMembers(beliefs: seq<Belief>)
    requires forall a, b :: a in beliefs && b in beliefs && a.id == b.id ==> a == b
    ensures forall b :: b in beliefs ==> b.id in ById(beliefs) && ById(beliefs)[b.id] == b
    ensures forall id :: id in ById(beliefs) ==> ById(beliefs)[id] in beliefs && ById(beliefs)[id].id == id
  {
    if beliefs != [] {
      var front, last := beliefs[..|beliefs| - 1], beliefs[|beliefs| - 1];
      assert beliefs == front + [last];
      ByIdMembers(front);
    }
  }

  lemma InKeyOrderMembers(s: Standing, b: Belief)
    requires Sound(s)
    ensures b in InKeyOrder(s.active) <==> b.key in s.active && s.active[b.key] == b
  {
    var keys := SortedNames(s.active.Keys);
    if b.key in s.active && s.active[b.key] == b {
      assert b.key in Names(keys);
      var i :| 0 <= i < |keys| && keys[i] == b.key;
      assert InKeyOrder(s.active)[i] == b;
    }
    if b in InKeyOrder(s.active) {
      var i :| 0 <= i < |keys| && InKeyOrder(s.active)[i] == b;
      assert keys[i] in Names(keys);
    }
  }

  lemma SortedMembers(bs: seq<Belief>, b: Belief)
    ensures b in SortBy((x: Belief) => x.id, bs) <==> b in bs
  {
    assert b in SortBy((x: Belief) => x.id, bs) <==> b in multiset(SortBy((x: Belief) => x.id, bs));
    assert b in bs <==> b in multiset(bs);
  }

  lemma RevisionMembers(s: Standing)
    requires Sound(s)
    ensures var r := Revision(InKeyOrder(s.active), SortBy((b: Belief) => b.id, s.superseded));
            forall b :: b in r.active + r.superseded <==> In(b, s)
  {
    forall b ensures b in InKeyOrder(s.active) + SortBy((x: Belief) => x.id, s.superseded) <==> In(b, s) {
      InKeyOrderMembers(s, b);
      SortedMembers(s.superseded, b);
    }
  }

  // Listing a dictionary keyed by identifier.
  lemma ListedById(byId: map<string, Belief>, listed: seq<Belief>)
    requires forall id :: id in byId ==> byId[id].id == id
    requires var ids := SortedNames(byId.Keys);
             |listed| == |ids| && forall i :: 0 <= i < |ids| ==> ids[i] in byId && listed[i] == byId[ids[i]]
    ensures forall b :: b in listed <==> b.id in byId && byId[b.id] == b
    ensures forall i, j :: 0 <= i < j < |listed| ==> listed[i].id != listed[j].id
  {
    var ids := SortedNames(byId.Keys);
    forall b: Belief | b.id in byId && byId[b.id] == b ensures b in listed {
      assert b.id in Names(ids);
      var i :| 0 <= i < |ids| && ids[i] == b.id;
      assert listed[i] == b;
    }
  }

  lemma ProjectedMembers(s: Standing)
    requires Sound(s)
    ensures var r := Revision(InKeyOrder(s.active), SortBy((b: Belief) => b.id, s.superseded));
            Orderly(Projected(r)) && forall b :: b in Projected(r) <==> In(b, s)
  {
    var r := Revision(InKeyOrder(s.active), SortBy((b: Belief) => b.id, s.superseded));
    var all := r.active + r.superseded;
    RevisionMembers(s);
    ByIdMembers(all);
    var ids := SortedNames(ById(all).Keys);
    forall i | 0 <= i < |ids| ensures ids[i] in ById(all) { assert ids[i] in Names(ids); }
    ListedById(ById(all), Projected(r));
    ActiveKeysApart(s, Projected(r));
  }

  lemma ActiveKeysApart(s: Standing, listed: seq<Belief>)
    requires Sound(s) && (forall b :: b in listed <==> In(b, s))
    requires forall i, j :: 0 <= i < j < |listed| ==> listed[i].id != listed[j].id
    ensures Orderly(listed)
  {
    forall i, j | 0 <= i < j < |listed| && listed[i].contradictedBy.None? && listed[j].contradictedBy.None?
      ensures listed[i].key != listed[j].key
    {
      assert In(listed[i], s) && In(listed[j], s);
    }
  }

  /* ---- One observation, and runs of observations ---- */

  // Every identifier was derived from an observation already seen.
  ghost predicate NamedFrom(name: Naming, mind: seq<Belief>, seen: set<nat>) {
    forall b :: b in mind ==> DerivedFrom(name, b, seen)
  }

  ghost predicate DerivedFrom(name: Naming, b: Belief, seen: set<nat>) {
    exists observation :: observation in seen && b.id == name(Seed(b.entity, observation, b.key, b.value))
  }

  function Observed(name: Naming, mind: seq<Belief>, o: Observation, claims: seq<Claim>): seq<Belief> {
    match Revised(name, o, claims, mind)
    case None => mind
    case Some(r) => Projected(r)
  }

  function Sorted(claims: seq<Claim>): seq<Claim> {
    SortBy((c: Claim) => c.key, claims)
  }

  lemma SortedClaims(claims: seq<Claim>)
    requires DistinctClaims(claims)
    ensures DistinctClaims(Sorted(claims)) && forall c :: c in Sorted(claims) <==> c in claims
  {
    var sorted := Sorted(claims);
    assert multiset(sorted) == multiset(claims);
    forall c ensures c in sorted <==> c in claims {
      assert c in sorted <==> c in multiset(sorted);
    }
    forall i, j | 0 <= i < j < |sorted| ensures sorted[i].key != sorted[j].key {
      if sorted[i].key == sorted[j].key {
        assert sorted[i] in claims && sorted[j] in claims;
        TwiceInMultiset(sorted, i, j);
        OnceInMultiset(claims, sorted[i]);
      }
    }
  }

  lemma TwiceInMultiset(claims: seq<Claim>, i: nat, j: nat)
    requires i < j < |claims|
    ensures claims[i] == claims[j] ==> multiset(claims)[claims[i]] >= 2
  {
    assert claims == claims[..i] + [claims[i]] + claims[i + 1..j] + [claims[j]] + claims[j + 1..];
  }

  lemma {:induction false} OnceInMultiset(claims: seq<Claim>, c: Claim)
    requires DistinctClaims(claims)
    ensures multiset(claims)[c] <= 1
  {
    if claims != [] {
      var front, last := claims[..|claims| - 1], claims[|claims| - 1];
      OnceInMultiset(front, c);
      assert claims == front + [last];
      assert last !in front;
    }
  }

  lemma SeenAreUnused(name: Naming, o: Observation, mind: seq<Belief>, seen: set<nat>)
    requires Injective(name) && Orderly(mind) && NamedFrom(name, mind, seen) && o.id !in seen
    ensures Unused(name, o, StandingOf(mind), {})
  {
    StandingMembers(mind);
    forall b, c: Claim | In(b, StandingOf(mind)) ensures b.id != name(SeedOf(o, c)) {
      assert b in mind && DerivedFrom(name, b, seen);
    }
  }

  lemma StandingAfter(name: Naming, mind: seq<Belief>, o: Observation, claims: seq<Claim>, seen: set<nat>)
    requires Injective(name) && Orderly(mind) && NamedFrom(name, mind, seen) && o.id !in seen && DistinctClaims(claims)
    ensures var s := AfterAll(name, o, StandingOf(mind), Sorted(claims));
            && Sound(s) && Orderly(Observed(name, mind, o, claims))
            && forall b :: b in Observed(name, mind, o, claims) <==> In(b, s)
  {
    StandingMembers(mind);
    SeenAreUnused(name, o, mind, seen);
    SortedClaims(claims);
    AfterAllIsSound(name, o, StandingOf(mind), Sorted(claims));
    ProjectedMembers(AfterAll(name, o, StandingOf(mind), Sorted(claims)));
  }

  ghost predicate Survives(b: Belief, mind: seq<Belief>) {
    exists later :: later in mind && Becomes(b, later)
  }

  /** An observation with a new identifier loses no belief, and leaves the mind orderly. */
  lemma ObservationKeeps(name: Naming, mind: seq<Belief>, o: Observation, claims: seq<Claim>, seen: set<nat>, b: Belief)
    requires Injective(name) && Orderly(mind) && NamedFrom(name, mind, seen) && o.id !in seen && b in mind
    ensures Orderly(Observed(name, mind, o, claims)) && Survives(b, Observed(name, mind, o, claims))
  {
    if DistinctClaims(claims) {
      StandingAfter(name, mind, o, claims, seen);
      StandingMembers(mind);
      SeenAreUnused(name, o, mind, seen);
      SortedClaims(claims);
      AfterAllKeeps(name, o, StandingOf(mind), Sorted(claims), b);
      var later :| In(later, AfterAll(name, o, StandingOf(mind), Sorted(claims))) && Becomes(b, later);
      assert later in Observed(name, mind, o, claims);
    } else {
      assert Becomes(b, b);
    }
  }

  ghost predicate InForce(b: Belief, mind: seq<Belief>, key: string) {
    b in mind && b.contradictedBy.None? && b.key == key
  }

  /**
   * What an observation says: for every claim the one belief in force under its key is the earlier one strengthened
   * by noisy-or, if the value agrees, and a newly formed one otherwise; a disagreeing earlier one is contradicted.
   */
  lemma ClaimDecides(name: Naming, mind: seq<Belief>, o: Observation, claims: seq<Claim>, seen: set<nat>, c: Claim)
    requires Injective(name) && Orderly(mind) && NamedFrom(name, mind, seen) && o.id !in seen && DistinctClaims(claims)
    requires c in claims
    ensures var next := Observed(name, mind, o, claims);
            var active := StandingOf(mind).active;
            && (forall b :: InForce(b, next, c.key) <==> b == Asserted(name, o, c, active))
            && (forall b :: InForce(b, mind, c.key) <==> c.key in active && b == active[c.key])
            && (c.key in active && active[c.key].value != c.value ==> Contradicted(active[c.key], o) in next)
  {
    StandingAfter(name, mind, o, claims, seen);
    StandingMembers(mind);
    SortedClaims(claims);
    var s := StandingOf(mind);
    var t := AfterAll(name, o, s, Sorted(claims));
    var i :| 0 <= i < |Sorted(claims)| && Sorted(claims)[i] == c;
    ActiveClaimed(name, o, s, Sorted(claims), i);
    forall b ensures InForce(b, Observed(name, mind, o, claims), c.key) <==> b == Asserted(name, o, c, s.active) {
      assert InForce(b, Observed(name, mind, o, claims), c.key) <==> c.key in t.active && b == t.active[c.key];
    }
    forall b ensures InForce(b, mind, c.key) <==> c.key in s.active && b == s.active[c.key] {}
    if c.key in s.active && s.active[c.key].value != c.value {
      var displaced := Contradicted(s.active[c.key], o);
      assert displaced in Displaced(o, c, s.active);
      SupersededAfterAll(name, o, s, Sorted(claims), displaced);
      assert In(displaced, t);
    }
  }

  lemma ObservationNames(name: Naming, mind: seq<Belief>, o: Observation, claims: seq<Claim>, seen: set<nat>)
    requires Injective(name) && Orderly(mind) && NamedFrom(name, mind, seen) && o.id !in seen
    ensures NamedFrom(name, Observed(name, mind, o, claims), seen + {o.id})
  {
    if DistinctClaims(claims) {
      StandingAfter(name, mind, o, claims, seen);
      StandingMembers(mind);
      forall b | b in mind ensures DerivedFrom(name, b, seen + {o.id}) {
        assert DerivedFrom(name, b, seen);
        var observation :| observation in seen && b.id == name(Seed(b.entity, observation, b.key, b.value));
        assert observation in seen + {o.id};
      }
      var s := StandingOf(mind);
      forall k | k in s.active ensures s.active[k] in mind { assert In(s.active[k], s); }
      forall b | b in s.superseded ensures b in mind { assert In(b, s); }
      NamesAfterAll(name, o, s, Sorted(claims), seen + {o.id});
    } else {
      forall b | b in mind ensures DerivedFrom(name, b, seen + {o.id}) {
        assert DerivedFrom(name, b, seen);
        var observation :| observation in seen && b.id == name(Seed(b.entity, observation, b.key, b.value));
        assert observation in seen + {o.id};
      }
    }
  }

  ghost predicate AllDerived(name: Naming, s: Standing, seen: set<nat>) {
    && (forall k :: k in s.active ==> s.active[k].key == k && DerivedFrom(name, s.active[k], seen))
    && (forall b :: b in s.superseded ==> DerivedFrom(name, b, seen))
  }

  lemma SameDerivation(name: Naming, a: Belief, b: Belief, seen: set<nat>)
    requires DerivedFrom(name, a, seen) && (a.id, a.entity, a.key, a.value) == (b.id, b.entity, b.key, b.value)
    ensures DerivedFrom(name, b, seen)
  {
    var observation :| observation in seen && a.id == name(Seed(a.entity, observation, a.key, a.value));
    assert b.id == name(Seed(b.entity, observation, b.key, b.value));
  }

  lemma NamesAfter(name: Naming, o: Observation, s: Standing, c: Claim, seen: set<nat>)
    requires o.id in seen && AllDerived(name, s, seen)
    ensures AllDerived(name, After(name, o, s, c), seen)
  {
    var formed := Formed(name, o, c);
    assert formed.id == name(Seed(formed.entity, o.id, formed.key, formed.value));
    if c.key in s.active {
      SameDerivation(name, s.active[c.key], Strengthened(s.active[c.key], o, c), seen);
      SameDerivation(name, s.active[c.key], Contradicted(s.active[c.key], o), seen);
    }
  }

  lemma {:induction false} NamesAfterAll(name: Naming, o: Observation, s: Standing, claims: seq<Claim>, seen: set<nat>)
    requires o.id in seen && AllDerived(name, s, seen)
    ensures AllDerived(name, AfterAll(name, o, s, claims), seen)
  {
    if claims != [] {
      NamesAfterAll(name, o, s, claims[..|claims| - 1], seen);
      NamesAfter(name, o, AfterAll(name, o, s, claims[..|claims| - 1]), claims[|claims| - 1], seen);
    }
  }

  datatype Report = Report(observation: Observation, claims: seq<Claim>)

  function Lived(name: Naming, mind: seq<Belief>, reports: seq<Report>): seq<Belief>
    decreases |reports|
  {
    if reports == [] then mind
    else Lived(name, Observed(name, mind, reports[0].observation, reports[0].claims), reports[1..])
  }

  ghost predicate NewObservations(reports: seq<Report>, seen: set<nat>) {
    && (forall i :: 0 <= i < |reports| ==> reports[i].observation.id !in seen)
    && (forall i, j :: 0 <= i < j < |reports| ==> reports[i].observation.id != reports[j].observation.id)
  }

  lemma RestAreNew(reports: seq<Report>, seen: set<nat>)
    requires reports != [] && NewObservations(reports, seen)
    ensures NewObservations(reports[1..], seen + {reports[0].observation.id})
  {
  }

  function ObservationsOf(reports: seq<Report>): set<nat> {
    set i | 0 <= i < |reports| :: reports[i].observation.id
  }

  lemma FirstReport(reports: seq<Report>)
    requires reports != []
    ensures ObservationsOf(reports) == {reports[0].observation.id} + ObservationsOf(reports[1..])
  {
    forall id | id in ObservationsOf(reports) ensures id in {reports[0].observation.id} + ObservationsOf(reports[1..]) {
      var i :| 0 <= i < |reports| && reports[i].observation.id == id;
      if i > 0 { assert reports[1..][i - 1].observation.id == id; }
    }
    forall id | id in ObservationsOf(reports[1..]) ensures id in ObservationsOf(reports) {
      var i :| 0 <= i < |reports| - 1 && reports[1..][i].observation.id == id;
      assert reports[i + 1].observation.id == id;
    }
    assert reports[0].observation.id in ObservationsOf(reports);
  }

  /** Over any run of distinct observations the mind stays orderly and its identifiers stay derived. */
  lemma {:induction false} LivedOrderly(name: Naming, mind: seq<Belief>, reports: seq<Report>, seen: set<nat>)
    requires Injective(name) && Orderly(mind) && NamedFrom(name, mind, seen) && NewObservations(reports, seen)
    ensures Orderly(Lived(name, mind, reports))
    ensures NamedFrom(name, Lived(name, mind, reports), seen + ObservationsOf(reports))
    decreases |reports|
  {
    if reports == [] {
      assert seen + ObservationsOf(reports) == seen;
    } else {
      FirstReport(reports);
      assert seen + {reports[0].observation.id} + ObservationsOf(reports[1..]) == seen + ObservationsOf(reports);
      var o, claims := reports[0].observation, reports[0].claims;
      if DistinctClaims(claims) { StandingAfter(name, mind, o, claims, seen); }
      ObservationNames(name, mind, o, claims, seen);
      RestAreNew(reports, seen);
      LivedOrderly(name, Observed(name, mind, o, claims), reports[1..], seen + {o.id});
    }
  }

  /**
   * Over any run of distinct observations no belief is lost: it keeps its identity, key and value, its confidence
   * never drops, and once contradicted it never changes again.
   */
  lemma {:induction false} NothingIsLost(name: Naming, mind: seq<Belief>, reports: seq<Report>, seen: set<nat>,
                                         b: Belief)
    requires Injective(name) && Orderly(mind) && NamedFrom(name, mind, seen) && NewObservations(reports, seen)
    requires b in mind
    ensures Survives(b, Lived(name, mind, reports))
    decreases |reports|
  {
    if reports == [] {
      assert Becomes(b, b);
    } else {
      var o, claims := reports[0].observation, reports[0].claims;
      var next := Observed(name, mind, o, claims);
      ObservationKeeps(name, mind, o, claims, seen, b);
      ObservationNames(name, mind, o, claims, seen);
      RestAreNew(reports, seen);
      var mid :| mid in next && Becomes(b, mid);
      NothingIsLost(name, next, reports[1..], seen + {o.id}, mid);
      var later :| later in Lived(name, next, reports[1..]) && Becomes(mid, later);
      BecomesTwice(b, mid, later);
    }
  }

  /**
   * The belief in force after a claim, field by field: an agreeing one keeps identity and value and gains confidence by
   * the rounded noisy-or of the rounded product; a new one has the product. Both point to the observation.
   */
  lemma AssertedFields(name: Naming, o: Observation, c: Claim, active: map<string, Belief>)
    ensures var b := Asserted(name, o, c, active);
            var weight := Product(o.confidence, c.confidence);
            && b.value == c.value && b.source == o.id && b.updated == o.at
            && (if c.key in active && active[c.key].value == c.value then
                  && (b.id, b.entity, b.key) == (active[c.key].id, active[c.key].entity, active[c.key].key)
                  && b.confidence == NoisyOr(active[c.key].confidence, weight)
                  && b.contradictedBy == active[c.key].contradictedBy
                else
                  && b.id == name(Seed(o.observer, o.id, c.key, c.value)) && b.entity == o.observer && b.key == c.key
                  && b.confidence == weight && b.contradictedBy == None)
  {
  }

  /** A contradicted belief only gets the event that contradicts it, and its time. */
  lemma ContradictedFields(b: Belief, o: Observation)
    ensures var later := Contradicted(b, o);
            && later.contradictedBy == Some(o.event) && later.updated == o.at && later.source == b.source
            && (later.id, later.entity, later.key, later.value, later.confidence) ==
               (b.id, b.entity, b.key, b.value, b.confidence)
  {
  }
}
