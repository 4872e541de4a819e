/** What a save does to a mind that moved on since it was loaded, and exactly when the mind stays orderly. */
module ProjectorRaces {
  import opened Wrappers
  import opened Beliefs
  import opened BeliefRuns
  import opened Projector
  import opened ProjectorTheorems
  import opened ProjectorMinds

  /* ---- The fate of one belief under one observation ---- */

  predicate Claims(claims: seq<Claim>, key: string) {
    exists i :: 0 <= i < |claims| && claims[i].key == key
  }

  predicate Denied(b: Belief, claims: seq<Claim>) {
    exists i :: 0 <= i < |claims| && claims[i].key == b.key && claims[i].value != b.value
  }

  // A contradicted belief stays; a denied one is contradicted, an affirmed one strengthened; any other stays.
  ghost predicate Fate(b: Belief, o: Observation, claims: seq<Claim>, later: Belief) {
    && (b.contradictedBy.Some? || !Claims(claims, b.key) ==> later == b)
    && (b.contradictedBy.None? && Denied(b, claims) ==> later == Contradicted(b, o))
    && (b.contradictedBy.None? ==>
          forall i :: 0 <= i < |claims| && claims[i].key == b.key && claims[i].value == b.value ==>
            later == Strengthened(b, o, claims[i]))
  }

  lemma UnclaimedStays(name: Naming, mind: seq<Belief>, o: Observation, claims: seq<Claim>, seen: set<nat>, b: Belief)
    requires Injective(name) && Orderly(mind) && NamedFrom(name, mind, seen) && o.id !in seen && DistinctClaims(claims)
    requires b in mind && (b.contradictedBy.Some? || !Claims(claims, b.key))
    ensures b in Observed(name, mind, o, claims)
  {
    var s := StandingOf(mind);
    var t := AfterAll(name, o, s, Sorted(claims));
    StandingMembers(mind);
    StandingAfter(name, mind, o, claims, seen);
    SortedClaims(claims);
    assert In(b, s);
    if b.contradictedBy.Some? {
      SupersededAfterAll(name, o, s, Sorted(claims), b);
    } else {
      forall i | 0 <= i < |Sorted(claims)| ensures Sorted(claims)[i].key != b.key {
        assert Sorted(claims)[i] in claims;
      }
      ActiveUnclaimed(name, o, s, Sorted(claims), b.key);
    }
    assert In(b, t);
  }

  lemma ClaimedDecides(name: Naming, mind: seq<Belief>, o: Observation, claims: seq<Claim>, seen: set<nat>,
                       b: Belief, i: nat)
    requires Injective(name) && Orderly(mind) && NamedFrom(name, mind, seen) && o.id !in seen && DistinctClaims(claims)
    requires b in mind && b.contradictedBy.None? && i < |claims| && claims[i].key == b.key
    ensures (if claims[i].value == b.value then Strengthened(b, o, claims[i]) else Contradicted(b, o))
            in Observed(name, mind, o, claims)
  {
    var c := claims[i];
    StandingMembers(mind);
    ClaimDecides(name, mind, o, claims, seen, c);
    assert InForce(b, mind, c.key);
    assert InForce(Asserted(name, o, c, StandingOf(mind).active), Observed(name, mind, o, claims), c.key);
  }

  /** What becomes of every belief under an observation with a new identifier. */
  lemma FateDecided(name: Naming, mind: seq<Belief>, o: Observation, claims: seq<Claim>, seen: set<nat>, b: Belief)
    returns (later: Belief)
    requires Injective(name) && Orderly(mind) && NamedFrom(name, mind, seen) && o.id !in seen && DistinctClaims(claims)
    requires b in mind
    ensures later in Observed(name, mind, o, claims) && later.id == b.id && Fate(b, o, claims, later)
  {
    if b.contradictedBy.Some? || !Claims(claims, b.key) {
      UnclaimedStays(name, mind, o, claims, seen, b);
      later := b;
    } else {
      var i :| 0 <= i < |claims| && claims[i].key == b.key;
      ClaimedDecides(name, mind, o, claims, seen, b, i);
      later := if claims[i].value == b.value then Strengthened(b, o, claims[i]) else Contradicted(b, o);
    }
  }

  /* ---- A save over a mind that moved on ---- */

  // A worker about to write: what it loaded, for whom, and what it is going to save.
  ghost predicate Writing(name: Naming, s: State, w: nat) {
    Can(s, Decide(w)) && OutcomeOf(name, GrantAt(s, w), s.jobs[w].loaded.value).Write?
  }

  ghost function Saving(name: Naming, s: State, w: nat): seq<Belief>
    requires Writing(name, s, w)
  {
    OutcomeOf(name, GrantAt(s, w), s.jobs[w].loaded.value).projected
  }

  // The mind is in good order, and so was the copy.
  ghost predicate SoundCopy(name: Naming, s: State, w: nat)
    requires Can(s, Decide(w))
  {
    var o := GrantAt(s, w).observer;
    var loaded := s.jobs[w].loaded.value;
    ShelfOk(name, ShelfOf(s, o), StoredOf(s, o)) && ShelfOk(name, loaded.shelf, loaded.observations)
  }

  // What is saved, for a sound copy: an orderly mind that still has everything that was loaded.
  ghost predicate Indexed(saved: seq<Belief>) {
    && (forall b :: b in saved ==> b.id in ById(saved) && ById(saved)[b.id] == b)
    && (forall id :: id in ById(saved) ==> ById(saved)[id] in saved && ById(saved)[id].id == id)
  }

  lemma OrderlyIsIndexed(saved: seq<Belief>)
    requires Orderly(saved)
    ensures Indexed(saved)
  {
    UniqueInMind(saved);
    ByIdMembers(saved);
  }

  lemma SavingFacts(name: Naming, s: State, w: nat)
    requires Injective(name) && Writing(name, s, w) && SoundCopy(name, s, w)
    ensures var saved := Saving(name, s, w);
            var loaded := s.jobs[w].loaded.value;
            && Orderly(saved) && Indexed(saved) && loaded.shelf.Keys <= ById(saved).Keys
            && NamedFrom(name, saved, loaded.observations + {GrantAt(s, w).observation.id})
  {
    var g := GrantAt(s, w);
    var loaded := s.jobs[w].loaded.value;
    var mind := Listing(loaded.shelf);
    StandingAfter(name, mind, g.observation, g.claims.value, loaded.observations);
    ObservationNames(name, mind, g.observation, g.claims.value, loaded.observations);
    EverythingStaysListed(name, loaded.shelf, loaded.observations, g.observation, g.claims.value);
    OrderlyIsIndexed(Saving(name, s, w));
  }

  lemma DecideSaves(name: Naming, s: State, w: nat)
    requires Writing(name, s, w)
    ensures Next(name, s, Decide(w)) == Saved(s, w, GrantAt(s, w), Saving(name, s, w))
  {
  }

  lemma SavedFrame(s: State, w: nat, g: Grant, saved: seq<Belief>, other: nat)
    requires w in s.jobs
    ensures var t := Saved(s, w, g, saved);
            && ShelfOf(t, g.observer) == ShelfOf(s, g.observer) + ById(saved)
            && StoredOf(t, g.observer) == StoredOf(s, g.observer) + {g.observation.id}
            && (other != g.observer ==>
                  ShelfOf(t, other) == ShelfOf(s, other) && StoredOf(t, other) == StoredOf(s, other))
  {
  }

  lemma SavedShelves(name: Naming, s: State, w: nat)
    requires Writing(name, s, w)
    ensures var o := GrantAt(s, w).observer;
            var t := Next(name, s, Decide(w));
            && ShelfOf(t, o) == ShelfOf(s, o) + ById(Saving(name, s, w))
            && StoredOf(t, o) == StoredOf(s, o) + {GrantAt(s, w).observation.id}
            && forall other :: other != o ==> ShelfOf(t, other) == ShelfOf(s, other)
  {
    DecideSaves(name, s, w);
    var g := GrantAt(s, w);
    SavedFrame(s, w, g, Saving(name, s, w), g.observer);
    forall other | other != g.observer ensures ShelfOf(Next(name, s, Decide(w)), other) == ShelfOf(s, other) {
      SavedFrame(s, w, g, Saving(name, s, w), other);
    }
  }

  lemma CopyDecides(name: Naming, loaded: Snapshot, g: Grant, id: string)
    requires Injective(name) && ShelfOk(name, loaded.shelf, loaded.observations)
    requires OutcomeOf(name, g, loaded).Write? && id in loaded.shelf
    ensures var saved := ById(OutcomeOf(name, g, loaded).projected);
            id in saved && Fate(loaded.shelf[id], g.observation, g.claims.value, saved[id])
  {
    var saved := OutcomeOf(name, g, loaded).projected;
    ListingMembers(loaded.shelf);
    var later := FateDecided(name, Listing(loaded.shelf), g.observation, g.claims.value, loaded.observations,
                             loaded.shelf[id]);
    StandingAfter(name, Listing(loaded.shelf), g.observation, g.claims.value, loaded.observations);
    OrderlyIsIndexed(saved);
  }

  /**
   * A save decides every belief the worker had loaded by the copy, whatever became of it since: strengthening and
   * contradiction that happened in between are undone.
   */
  lemma SaveFollowsTheCopy(name: Naming, s: State, w: nat, id: string)
    requires Injective(name) && Writing(name, s, w) && SoundCopy(name, s, w)
    requires id in s.jobs[w].loaded.value.shelf
    ensures var g := GrantAt(s, w);
            var after := ShelfOf(Next(name, s, Decide(w)), g.observer);
            id in after && Fate(s.jobs[w].loaded.value.shelf[id], g.observation, g.claims.value, after[id])
  {
    SavedShelves(name, s, w);
    CopyDecides(name, s.jobs[w].loaded.value, GrantAt(s, w), id);
  }

  /** Beliefs it does not save, and other minds, are left alone. */
  lemma SaveLeavesTheRest(name: Naming, s: State, w: nat)
    requires Writing(name, s, w)
    ensures var o := GrantAt(s, w).observer;
            var t := Next(name, s, Decide(w));
            && (forall id :: id in ShelfOf(s, o) && id !in ById(Saving(name, s, w)) ==>
                  id in ShelfOf(t, o) && ShelfOf(t, o)[id] == ShelfOf(s, o)[id])
            && forall other :: other != o ==> ShelfOf(t, other) == ShelfOf(s, other)
  {
    SavedShelves(name, s, w);
  }

  /** So a belief contradicted since the load is in force again if and only if the observation does not deny it. */
  lemma ContradictionUndone(name: Naming, s: State, w: nat, id: string)
    requires Injective(name) && Writing(name, s, w) && SoundCopy(name, s, w)
    requires var loaded := s.jobs[w].loaded.value.shelf;
             id in loaded && loaded[id].contradictedBy.None?
    requires var now := ShelfOf(s, GrantAt(s, w).observer);
             id in now && now[id].contradictedBy.Some?
    ensures var g := GrantAt(s, w);
            var after := ShelfOf(Next(name, s, Decide(w)), g.observer);
            id in after &&
            (after[id].contradictedBy.None? <==> !Denied(s.jobs[w].loaded.value.shelf[id], g.claims.value))
  {
    var g := GrantAt(s, w);
    var b := s.jobs[w].loaded.value.shelf[id];
    SaveFollowsTheCopy(name, s, w, id);
    if !Denied(b, g.claims.value) && Claims(g.claims.value, b.key) {
      var i :| 0 <= i < |g.claims.value| && g.claims.value[i].key == b.key;
      assert g.claims.value[i].value == b.value;
    }
  }

  /* ---- One belief in force per key ---- */

  predicate TwoActive(shelf: Shelf, x: string, y: string) {
    x in shelf && y in shelf && x != y && shelf[x].contradictedBy.None? && shelf[y].contradictedBy.None?
  }

  lemma OrderlyMeansSingle(shelf: Shelf)
    requires forall id :: id in shelf ==> shelf[id].id == id
    ensures Orderly(Listing(shelf)) <==>
            forall x, y :: TwoActive(shelf, x, y) ==> shelf[x].key != shelf[y].key
  {
    ListingMembers(shelf);
    var listed := Listing(shelf);
    if Orderly(listed) {
      forall x, y | TwoActive(shelf, x, y) ensures shelf[x].key != shelf[y].key {
        assert shelf[x] in listed && shelf[y] in listed;
        var i :| 0 <= i < |listed| && listed[i] == shelf[x];
        var j :| 0 <= j < |listed| && listed[j] == shelf[y];
        assert listed[if i < j then i else j].key != listed[if i < j then j else i].key;
      }
    } else {
      var i, j :| 0 <= i < j < |listed| && !(listed[i].id != listed[j].id &&
                  (listed[i].contradictedBy.None? && listed[j].contradictedBy.None? ==>
                     listed[i].key != listed[j].key));
      assert listed[i] in listed && listed[j] in listed;
      assert TwoActive(shelf, listed[i].id, listed[j].id);
    }
  }

  // A belief the save leaves alone is in force under a key that is in force in what is saved.
  ghost predicate Collides(shelf: Shelf, saved: seq<Belief>) {
    exists id, b ::
      id in shelf && id !in ById(saved) && shelf[id].contradictedBy.None? && InForce(b, saved, shelf[id].key)
  }

  lemma CollisionShows(shelf: Shelf, saved: seq<Belief>) returns (x: string, y: string)
    requires Indexed(saved) && Collides(shelf, saved)
    ensures TwoActive(shelf + ById(saved), x, y) && (shelf + ById(saved))[x].key == (shelf + ById(saved))[y].key
  {
    var id, b :|
      id in shelf && id !in ById(saved) && shelf[id].contradictedBy.None? && InForce(b, saved, shelf[id].key);
    x, y := id, b.id;
  }

  lemma NoCollisionIsSingle(shelf: Shelf, saved: seq<Belief>, x: string, y: string)
    requires Orderly(saved) && Indexed(saved) && !Collides(shelf, saved)
    requires forall x, y :: TwoActive(shelf, x, y) ==> shelf[x].key != shelf[y].key
    requires TwoActive(shelf + ById(saved), x, y)
    ensures (shelf + ById(saved))[x].key != (shelf + ById(saved))[y].key
  {
    var byId := ById(saved);
    if x in byId && y in byId {
      SavedApart(saved, byId[x], byId[y]);
    } else if x in byId {
      assert !InForce(byId[x], saved, shelf[y].key);
    } else if y in byId {
      assert !InForce(byId[y], saved, shelf[x].key);
    } else {
      assert TwoActive(shelf, x, y);
    }
  }

  lemma OverlayOrderly(shelf: Shelf, saved: seq<Belief>)
    requires (forall id :: id in shelf ==> shelf[id].id == id) && Orderly(Listing(shelf))
    requires Orderly(saved) && Indexed(saved)
    ensures Orderly(Listing(shelf + ById(saved))) <==> !Collides(shelf, saved)
  {
    OrderlyMeansSingle(shelf);
    OrderlyMeansSingle(shelf + ById(saved));
    if Collides(shelf, saved) {
      var x, y := CollisionShows(shelf, saved);
    } else {
      forall x, y | TwoActive(shelf + ById(saved), x, y)
        ensures (shelf + ById(saved))[x].key != (shelf + ById(saved))[y].key
      {
        NoCollisionIsSingle(shelf, saved, x, y);
      }
    }
  }

  lemma SavedApart(saved: seq<Belief>, a: Belief, b: Belief)
    requires Orderly(saved) && a in saved && b in saved && a.id != b.id
    requires a.contradictedBy.None? && b.contradictedBy.None?
    ensures a.key != b.key
  {
    var i :| 0 <= i < |saved| && saved[i] == a;
    var j :| 0 <= j < |saved| && saved[j] == b;
    assert saved[if i < j then i else j].key != saved[if i < j then j else i].key;
  }

  /**
   * A save leaves the mind with at most one belief in force per key if and only if no belief that entered since the
   * load, and is not itself part of the save, is in force under a key in force in what is saved.
   */
  lemma SaveOrderlyIff(name: Naming, s: State, w: nat)
    requires Injective(name) && Writing(name, s, w) && SoundCopy(name, s, w)
    ensures var o := GrantAt(s, w).observer;
            Orderly(Listing(ShelfOf(Next(name, s, Decide(w)), o))) <==> !Collides(ShelfOf(s, o), Saving(name, s, w))
    ensures forall id :: id !in ById(Saving(name, s, w)) ==> id !in s.jobs[w].loaded.value.shelf
  {
    SavingFacts(name, s, w);
    SavedShelves(name, s, w);
    OverlayOrderly(ShelfOf(s, GrantAt(s, w).observer), Saving(name, s, w));
  }

  /* ---- Whole runs: orderly minds exactly while no save collides ---- */

  ghost predicate CopyOk(name: Naming, stored: set<nat>, loaded: Snapshot) {
    ShelfOk(name, loaded.shelf, loaded.observations) && loaded.observations <= stored
  }

  // Every copy a worker holds was loaded from an orderly mind.
  ghost predicate CopiesOk(name: Naming, s: State) {
    forall w: nat :: JobCopyOk(name, s, w)
  }

  ghost predicate Collision(name: Naming, s: State, step: Step) {
    step.Decide? && Writing(name, s, step.worker)
    && Collides(ShelfOf(s, GrantAt(s, step.worker).observer), Saving(name, s, step.worker))
  }

  lemma StoredGrows(name: Naming, s: State, step: Step, o: nat)
    requires Can(s, step)
    ensures StoredOf(s, o) <= StoredOf(Next(name, s, step), o)
  {
    NextGrows(name, s, step);
  }

  ghost predicate JobCopyOk(name: Naming, s: State, w: nat) {
    AtGrant(s, w) && s.jobs[w].loaded.Some? ==>
      CopyOk(name, StoredOf(s, GrantAt(s, w).observer), s.jobs[w].loaded.value)
  }

  lemma OnlyLoadsCopy(name: Naming, s: State, step: Step, w: nat)
    requires Can(s, step) && Actor(step) == Some(w) && !step.Load?
    ensures var t := Next(name, s, step); AtGrant(t, w) ==> t.jobs[w].loaded.None?
  {
  }

  lemma OwnCopy(name: Naming, s: State, step: Step, w: nat)
    requires MindsOk(name, s) && Can(s, step) && Actor(step) == Some(w)
    ensures JobCopyOk(name, Next(name, s, step), w)
  {
    if step.Load? {
      var o := GrantAt(s, w).observer;
      assert ShelfOk(name, ShelfOf(s, o), StoredOf(s, o));
    } else {
      OnlyLoadsCopy(name, s, step, w);
    }
  }

  lemma OtherCopy(name: Naming, s: State, step: Step, w: nat)
    requires JobCopyOk(name, s, w) && Can(s, step) && Actor(step) != Some(w)
    ensures JobCopyOk(name, Next(name, s, step), w)
  {
    var t := Next(name, s, step);
    NextGrows(name, s, step);
    OtherJobs(name, s, step, w);
    if AtGrant(t, w) && t.jobs[w].loaded.Some? { StoredGrows(name, s, step, GrantAt(t, w).observer); }
  }

  lemma CopiesStay(name: Naming, s: State, step: Step)
    requires MindsOk(name, s) && CopiesOk(name, s) && Can(s, step)
    ensures CopiesOk(name, Next(name, s, step))
  {
    var t := Next(name, s, step);
    forall w: nat ensures JobCopyOk(name, t, w) {
      if Actor(step) == Some(w) { OwnCopy(name, s, step, w); } else { OtherCopy(name, s, step, w); }
    }
  }

  lemma OnlyWritesChange(name: Naming, s: State, step: Step, o: nat)
    requires Can(s, step) && !(step.Decide? && Writing(name, s, step.worker) && GrantAt(s, step.worker).observer == o)
    ensures var t := Next(name, s, step); ShelfOf(t, o) == ShelfOf(s, o) && StoredOf(t, o) == StoredOf(s, o)
  {
    UntouchedMind(name, s, step, o);
  }

  lemma NamesOverlay(name: Naming, shelf: Shelf, saved: seq<Belief>, seen: set<nat>, more: set<nat>)
    requires (forall id :: id in shelf ==> shelf[id].id == id) && Indexed(saved)
    requires NamedFrom(name, Listing(shelf), seen) && seen <= more && NamedFrom(name, saved, more)
    ensures NamedFrom(name, Listing(shelf + ById(saved)), more)
  {
    var over := shelf + ById(saved);
    ListingMembers(shelf);
    ListingMembers(over);
    forall b | b in Listing(over) ensures DerivedFrom(name, b, more) {
      if b.id in ById(saved) {
        assert b in saved;
      } else {
        assert b in Listing(shelf) && DerivedFrom(name, b, seen);
        var observation :| observation in seen && b.id == name(Seed(b.entity, observation, b.key, b.value));
        assert observation in more;
      }
    }
  }

  lemma NamesMore(name: Naming, mind: seq<Belief>, seen: set<nat>, more: set<nat>)
    requires NamedFrom(name, mind, seen) && seen <= more
    ensures NamedFrom(name, mind, more)
  {
    forall b | b in mind ensures DerivedFrom(name, b, more) {
      assert DerivedFrom(name, b, seen);
      var observation :| observation in seen && b.id == name(Seed(b.entity, observation, b.key, b.value));
      assert observation in more;
    }
  }

  lemma CopyIsSound(name: Naming, s: State, w: nat)
    requires MindsOk(name, s) && CopiesOk(name, s) && Can(s, Decide(w))
    ensures SoundCopy(name, s, w) && s.jobs[w].loaded.value.observations <= StoredOf(s, GrantAt(s, w).observer)
  {
    assert JobCopyOk(name, s, w);
  }

  lemma SaveKeepsNames(name: Naming, s: State, w: nat)
    requires Injective(name) && Writing(name, s, w) && SoundCopy(name, s, w)
    requires s.jobs[w].loaded.value.observations <= StoredOf(s, GrantAt(s, w).observer)
    ensures var g := GrantAt(s, w);
            NamedFrom(name, Listing(ShelfOf(s, g.observer) + ById(Saving(name, s, w))),
                      StoredOf(s, g.observer) + {g.observation.id})
  {
    var g := GrantAt(s, w);
    var loaded := s.jobs[w].loaded.value;
    var seen := StoredOf(s, g.observer);
    SavingFacts(name, s, w);
    NamesMore(name, Saving(name, s, w), loaded.observations + {g.observation.id}, seen + {g.observation.id});
    NamesOverlay(name, ShelfOf(s, g.observer), Saving(name, s, w), seen, seen + {g.observation.id});
  }

  lemma SaveKeepsShelf(name: Naming, s: State, w: nat)
    requires Injective(name) && MindsOk(name, s) && CopiesOk(name, s)
    requires Writing(name, s, w) && !Collision(name, s, Decide(w))
    ensures var o := GrantAt(s, w).observer;
            var t := Next(name, s, Decide(w));
            ShelfOk(name, ShelfOf(t, o), StoredOf(t, o))
  {
    CopyIsSound(name, s, w);
    SaveKeepsNames(name, s, w);
    SaveOrderlyIff(name, s, w);
    SavedShelves(name, s, w);
    SavingFacts(name, s, w);
  }

  lemma MindsStay(name: Naming, s: State, step: Step)
    requires Injective(name) && MindsOk(name, s) && CopiesOk(name, s) && Can(s, step) && !Collision(name, s, step)
    ensures MindsOk(name, Next(name, s, step))
  {
    var t := Next(name, s, step);
    forall o ensures ShelfOk(name, ShelfOf(t, o), StoredOf(t, o)) {
      assert ShelfOk(name, ShelfOf(s, o), StoredOf(s, o));
      if step.Decide? && Writing(name, s, step.worker) && GrantAt(s, step.worker).observer == o {
        SaveKeepsShelf(name, s, step.worker);
      } else {
        OnlyWritesChange(name, s, step, o);
      }
    }
  }

  ghost predicate AllOrderly(s: State) {
    forall o :: Orderly(Listing(ShelfOf(s, o)))
  }

  lemma CollisionShowsUp(name: Naming, s: State, step: Step)
    requires Injective(name) && MindsOk(name, s) && CopiesOk(name, s) && Collision(name, s, step)
    ensures !AllOrderly(Next(name, s, step))
  {
    CopyIsSound(name, s, step.worker);
    SaveOrderlyIff(name, s, step.worker);
    assert !Orderly(Listing(ShelfOf(Next(name, s, step), GrantAt(s, step.worker).observer)));
  }

  ghost function Taken(name: Naming, s: State, step: Step): State {
    if Can(s, step) then Next(name, s, step) else s
  }

  ghost predicate OrderlyThroughout(name: Naming, s: State, steps: seq<Step>)
    decreases |steps|
  {
    AllOrderly(s) && (steps != [] ==> OrderlyThroughout(name, Taken(name, s, steps[0]), steps[1..]))
  }

  ghost predicate NoCollision(name: Naming, s: State, steps: seq<Step>)
    decreases |steps|
  {
    steps != [] ==> !Collision(name, s, steps[0]) && NoCollision(name, Taken(name, s, steps[0]), steps[1..])
  }

  lemma OkIsOrderly(name: Naming, s: State)
    requires MindsOk(name, s)
    ensures AllOrderly(s)
  {
    forall o ensures Orderly(Listing(ShelfOf(s, o))) { assert ShelfOk(name, ShelfOf(s, o), StoredOf(s, o)); }
  }

  /**
   * From minds and copies in good order, every mind keeps at most one belief in force per key throughout an interleaved
   * run if and only if no save of the run collides.
   */
  lemma {:induction false} OrderlyRunIff(name: Naming, s: State, steps: seq<Step>)
    requires Injective(name) && MindsOk(name, s) && CopiesOk(name, s)
    ensures OrderlyThroughout(name, s, steps) <==> NoCollision(name, s, steps)
    decreases |steps|
  {
    OkIsOrderly(name, s);
    if steps != [] {
      var t := Taken(name, s, steps[0]);
      if Collision(name, s, steps[0]) {
        CollisionShowsUp(name, s, steps[0]);
        assert !AllOrderly(t);
      } else {
        if Can(s, steps[0]) {
          MindsStay(name, s, steps[0]);
          CopiesStay(name, s, steps[0]);
        }
        OrderlyRunIff(name, t, steps[1..]);
      }
    }
  }

  /** Which any fresh outbox with empty minds meets. */
  lemma FreshIsOk(name: Naming, s: State)
    requires Fresh(s) && s.shelves == map[]
    ensures MindsOk(name, s) && CopiesOk(name, s)
  {
    forall o ensures ShelfOk(name, ShelfOf(s, o), StoredOf(s, o)) { assert Listing(map[]) == []; }
  }

  /** So from an empty outbox, any interleaving keeps every mind orderly if and only if no save in it collides. */
  lemma FreshRunIff(name: Naming, s: State, steps: seq<Step>)
    requires Injective(name) && Fresh(s) && s.shelves == map[]
    ensures OrderlyThroughout(name, s, steps) <==> NoCollision(name, s, steps)
  {
    FreshIsOk(name, s);
    OrderlyRunIff(name, s, steps);
  }

  /* ---- Working on an event that is already projected ---- */

  // A decision on a matching grant with readable, distinct claims, by a worker whose copy lacks the observation.
  predicate OutdatedDecision(s: State, step: Step) {
    step.Decide? && Can(s, step)
    && var g := GrantAt(s, step.worker);
    && g.matches && g.claims.Some? && DistinctClaims(g.claims.value)
    && g.observation.id !in s.jobs[step.worker].loaded.value.observations
  }

  lemma WritingIff(name: Naming, s: State, step: Step)
    ensures step.Decide? && Writing(name, s, step.worker) <==> OutdatedDecision(s, step)
  {
  }

  lemma OverlayChanges(shelf: Shelf, over: Shelf)
    ensures shelf + over != shelf <==> exists id :: id in over && !(id in shelf && shelf[id] == over[id])
  {
    if !exists id :: id in over && !(id in shelf && shelf[id] == over[id]) {
      forall id | id in over ensures id in shelf && shelf[id] == over[id] {}
      assert shelf + over == shelf;
    }
    if id :| id in over && !(id in shelf && shelf[id] == over[id]) {
      assert (shelf + over)[id] == over[id];
    }
  }

  lemma StoredAgain(s: State, g: Grant)
    requires Stored(s.stored, g)
    ensures s.stored[g.observer := StoredOf(s, g.observer) + {g.observation.id}] == s.stored
  {
    assert StoredOf(s, g.observer) + {g.observation.id} == s.stored[g.observer];
  }

  /**
   * A step on a row whose event is fully projected writes a mind if and only if it is an outdated decision. It stores
   * no new observation, and the mind it writes changes exactly if it does not yet hold some belief as it is saved.
   */
  lemma ProjectedRowStep(name: Naming, s: State, step: Step, id: nat)
    requires id in s.rows && Done(s.stored, s.rows[id].grants, |s.rows[id].grants|)
    requires Can(s, step) && On(s, step, id)
    ensures var t := Next(name, s, step);
            && t.stored == s.stored
            && (OutdatedDecision(s, step) <==> step.Decide? && Writing(name, s, step.worker))
            && (!OutdatedDecision(s, step) ==> t.shelves == s.shelves)
            && (OutdatedDecision(s, step) ==>
                  var o := GrantAt(s, step.worker).observer;
                  var saved := ById(Saving(name, s, step.worker));
                  && t.shelves == s.shelves[o := ShelfOf(s, o) + saved]
                  && (ShelfOf(t, o) != ShelfOf(s, o) <==>
                        exists b :: b in saved && !(b in ShelfOf(s, o) && ShelfOf(s, o)[b] == saved[b])))
  {
    WritingIff(name, s, step);
    if OutdatedDecision(s, step) {
      var g := GrantAt(s, step.worker);
      DecideSaves(name, s, step.worker);
      StoredAgain(s, g);
      OverlayChanges(ShelfOf(s, g.observer), ById(Saving(name, s, step.worker)));
    } else if step.Decide? {
      ReleasedFrame(s, step.worker);
    } else if step.Fail? {
      ReleasedFrame(s, step.worker);
    }
  }
}
