/** The subjective projection store: minds, and the observations they were built from. */
module MindStores {
  import opened Wrappers
  import opened Beliefs
  import opened BeliefRuns

  datatype Memory = Memory(id: nat, text: string)

  datatype Mind = Mind(entity: nat, beliefs: seq<Belief>, memories: seq<Memory>)

  // Why a belief is held: the observation it rests on.
  datatype Evidence = Evidence(id: nat, belief: Option<string>, source: nat)

  datatype Update = Update(
    observation: Option<Observation>, revision: Option<Revision>, evidence: seq<Evidence>, memory: Option<Memory>)

  datatype Place = Place(branch: Option<nat>, id: nat)

  function Remembered(memories: seq<Memory>, memory: Option<Memory>): seq<Memory> {
    if memory.None? || (exists i :: 0 <= i < |memories| && memories[i].id == memory.value.id) then memories
    else memories + [memory.value]
  }

  function Updated(mind: Mind, u: Update): Mind {
    mind.(beliefs := match u.revision case None => mind.beliefs case Some(r) => Projected(r),
          memories := Remembered(mind.memories, u.memory))
  }

  // The records filed one after the other, each unless its identifier is taken.
  function Filed(held: map<Place, Evidence>, branch: Option<nat>, items: seq<Evidence>): map<Place, Evidence> {
    if items == [] then held
    else
      var filed, last := Filed(held, branch, items[..|items| - 1]), items[|items| - 1];
      if Place(branch, last.id) in filed then filed else filed[Place(branch, last.id) := last]
  }

  ghost predicate FirstOf(items: seq<Evidence>, e: Evidence) {
    exists i :: 0 <= i < |items| && items[i] == e && forall j :: 0 <= j < i ==> items[j].id != e.id
  }

  /** What is filed under a place is what was there already, or else the first record with that identifier. */
  lemma {:induction false} FiledExact(held: map<Place, Evidence>, branch: Option<nat>, items: seq<Evidence>, k: Place)
    ensures var filed := Filed(held, branch, items);
            && (k in held ==> k in filed && filed[k] == held[k])
            && (k !in held ==>
                  && (k in filed <==> k.branch == branch && exists i :: 0 <= i < |items| && items[i].id == k.id)
                  && (k in filed ==> FirstOf(items, filed[k]) && filed[k].id == k.id))
  {
    if items != [] {
      var front, last := items[..|items| - 1], items[|items| - 1];
      FiledExact(held, branch, front, k);
      var filed := Filed(held, branch, front);
      if k !in held && k in filed {
        var i :| 0 <= i < |front| && front[i] == filed[k] && forall j :: 0 <= j < i ==> front[j].id != filed[k].id;
        assert items[i] == filed[k];
      } else if k !in held && k == Place(branch, last.id) {
        assert items[|items| - 1] == last;
        forall j | 0 <= j < |front| ensures items[j].id != last.id { assert front[j].id != last.id; }
      }
      forall i | 0 <= i < |items| ensures i < |front| ==> items[i] == front[i] {}
    }
  }

  class MindStore {
    var states: map<Place, Mind>
    var observations: map<Place, Observation>
    var evidence: map<Place, Evidence>

    function Held(entity: nat, branch: Option<nat>): Mind
      reads this
    {
      if Place(branch, entity) in states then states[Place(branch, entity)] else Mind(entity, [], [])
    }

    constructor ()
      ensures states == map[] && observations == map[] && evidence == map[]
    {
      states, observations, evidence := map[], map[], map[];
    }

    method HasObservation(observation: nat, branch: Option<nat>) returns (r: bool)
      ensures r <==> Place(branch, observation) in observations
    {
      return Place(branch, observation) in observations;
    }

    method PreviewSubjectiveUpdate(entity: nat, u: Update, branch: Option<nat>) returns (r: Mind)
      ensures r == Updated(Held(entity, branch), u)
    {
      var mind := Held(entity, branch);
      var beliefs := mind.beliefs;
      if u.revision.Some? { beliefs := Projected(u.revision.value); }
      var memories := mind.memories;
      if u.memory.Some? && forall i :: 0 <= i < |memories| ==> memories[i].id != u.memory.value.id {
        memories := memories + [u.memory.value];
      }
      return mind.(beliefs := beliefs, memories := memories);
    }

    // An update for somebody else's observation is refused, after the mind itself has been set up.
    method ApplySubjectiveUpdate(entity: nat, u: Update, branch: Option<nat>) returns (r: Option<Mind>)
      modifies this
      ensures r.None? <==> u.observation.Some? && u.observation.value.observer != entity
      ensures r.Some? ==> r.value == Updated(old(Held(entity, branch)), u)
      ensures states == old(states)[Place(branch, entity) := if r.Some? then r.value else old(Held(entity, branch))]
      ensures observations ==
              if r.None? || u.observation.None? || Place(branch, u.observation.value.id) in old(observations)
              then old(observations)
              else old(observations)[Place(branch, u.observation.value.id) := u.observation.value]
      ensures evidence == if r.None? then old(evidence) else Filed(old(evidence), branch, u.evidence)
    {
      var key := Place(branch, entity);
      if key !in states { states := states[key := Mind(entity, [], [])]; }
      if u.observation.Some? {
        var o := u.observation.value;
        if o.observer != entity { return None; }
        if Place(branch, o.id) !in observations { observations := observations[Place(branch, o.id) := o]; }
      }
      for i := 0 to |u.evidence|
        invariant evidence == Filed(old(evidence), branch, u.evidence[..i])
        invariant states == old(states)[key := old(Held(entity, branch))]
        invariant observations == old(observations) ||
                  (u.observation.Some? && Place(branch, u.observation.value.id) !in old(observations) &&
                   observations == old(observations)[Place(branch, u.observation.value.id) := u.observation.value])
        invariant u.observation.Some? ==> Place(branch, u.observation.value.id) in observations
      {
        var item := u.evidence[i];
        assert u.evidence[..i + 1][..i] == u.evidence[..i];
        if Place(branch, item.id) !in evidence { evidence := evidence[Place(branch, item.id) := item]; }
      }
      assert u.evidence[..|u.evidence|] == u.evidence;
      var committed := PreviewSubjectiveUpdate(entity, u, branch);
      states := states[key := committed];
      return Some(committed);
    }
  }

  /**
   * Observe, revise and store: the whole update of an observation nobody has seen keeps every belief the mind held,
   * and keeps the mind orderly.
   */
  method Absorb(store: MindStore, name: Naming, entity: nat, branch: Option<nat>, o: Observation, claims: seq<Claim>,
                items: seq<Evidence>, memory: Option<Memory>, ghost seen: set<nat>) returns (r: Option<Mind>)
    requires Injective(name) && o.id !in seen && o.observer == entity
    requires Orderly(store.Held(entity, branch).beliefs) && NamedFrom(name, store.Held(entity, branch).beliefs, seen)
    modifies store
    ensures r.None? <==> !DistinctClaims(claims)
    ensures r.None? ==> store.states == old(store.states) && store.observations == old(store.observations)
                        && store.evidence == old(store.evidence)
    ensures r.Some? ==>
              && store.Held(entity, branch) == r.value && Place(branch, o.id) in store.observations
              && r.value.beliefs == Observed(name, old(store.Held(entity, branch).beliefs), o, claims)
              && store.evidence == Filed(old(store.evidence), branch, items)
              && Orderly(r.value.beliefs)
              && forall b :: b in old(store.Held(entity, branch).beliefs) ==> Survives(b, r.value.beliefs)
  {
    var before := store.Held(entity, branch).beliefs;
    var revision := Revise(name, o, claims, before);
    if revision.None? { return None; }
    r := store.ApplySubjectiveUpdate(entity, Update(Some(o), revision, items, memory), branch);
    forall b | b in before ensures Survives(b, r.value.beliefs) {
      ObservationKeeps(name, before, o, claims, seen, b);
    }
    StandingAfter(name, before, o, claims, seen);
  }

  /** A memory is appended unless one with its identifier is there; nothing else changes, and none is ever doubled. */
  lemma RememberedExact(memories: seq<Memory>, memory: Option<Memory>)
    ensures var after := Remembered(memories, memory);
            && memories <= after && |after| <= |memories| + 1
            && (memory.Some? ==> exists i :: 0 <= i < |after| && after[i].id == memory.value.id)
            && (|after| > |memories| ==>
                  && memory == Some(after[|memories|])
                  && forall i :: 0 <= i < |memories| ==> memories[i].id != after[|memories|].id)
  {
    var after := Remembered(memories, memory);
    if memory.Some? && after != memories { assert after[|memories|] == memory.value; }
  }
}
