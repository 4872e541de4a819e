/** Belief revision: fixed-point confidence, one active belief per key, contradicted beliefs kept as history. */
module Beliefs {
  import opened Wrappers
  import opened Ordering
  import opened TextSets
  import KernelState

  type Value = KernelState.Value

  /* ---- Confidence in millionths, rounded half to even ---- */

  const ONE: nat := 1_000_000

  type Confidence = n: nat | n <= ONE

  function RoundHalfEven(n: nat, d: nat): nat
    requires d > 0
  {
    var q, r := n / d, n % d;
    if 2 * r < d then q else if 2 * r > d then q + 1 else q + q % 2
  }

  lemma RoundBetween(n: nat, lo: nat, hi: nat)
    requires lo * ONE <= n <= hi * ONE
    ensures lo <= RoundHalfEven(n, ONE) <= hi
  {
  }

  /** Rounding moves the value by at most half a millionth. */
  lemma RoundNear(n: nat)
    ensures 2 * n - ONE <= 2 * RoundHalfEven(n, ONE) * ONE <= 2 * n + ONE
  {
  }

  lemma ProductBelow(a: Confidence, b: Confidence)
    ensures a * b <= a * ONE && a * b <= b * ONE && a * b <= ONE * ONE
  {
  }

  // Two confidences multiplied.
  function Product(a: Confidence, b: Confidence): (r: Confidence)
    ensures r <= a && r <= b
  {
    ProductBelow(a, b);
    RoundBetween(a * b, 0, a);
    RoundBetween(a * b, 0, b);
    RoundHalfEven(a * b, ONE)
  }

  // Either of two independent confidences holding.
  function NoisyOr(a: Confidence, b: Confidence): (r: Confidence)
    ensures a <= r && b <= r
  {
    ProductBelow(ONE - a, ONE - b);
    var n := ONE * ONE - (ONE - a) * (ONE - b);
    RoundBetween(n, a, ONE);
    RoundBetween(n, b, ONE);
    RoundHalfEven(n, ONE)
  }

  /** The rounded product is within half a millionth of the product. */
  lemma ProductNear(a: Confidence, b: Confidence)
    ensures 2 * (a * b) - ONE <= 2 * Product(a, b) * ONE <= 2 * (a * b) + ONE
  {
    RoundNear(a * b);
  }

  /** The rounded noisy-or is within half a millionth of one minus the product of the doubts. */
  lemma NoisyOrNear(a: Confidence, b: Confidence)
    ensures var n := ONE * (a + b) - a * b;
            2 * n - ONE <= 2 * NoisyOr(a, b) * ONE <= 2 * n + ONE
  {
    DoubtsMultiplied(a, b);
    var n: int := ONE * (a + b) - a * b;
    assert NoisyOr(a, b) == RoundHalfEven(n, ONE);
    RoundNear(n);
  }

  lemma DoubtsMultiplied(a: Confidence, b: Confidence)
    ensures ONE * ONE - (ONE - a) * (ONE - b) == ONE * (a + b) - a * b >= 0
  {
    ProductBelow(ONE - a, ONE - b);
  }

  /* ---- Beliefs ---- */

  // A key is the subject type, the subject and the predicate, as one text in the order of the triple.
  datatype Belief = Belief(
    id: string, entity: nat, key: string, value: Value, confidence: Confidence,
    source: nat, updated: int, contradictedBy: Option<nat>)

  datatype Claim = Claim(key: string, value: Value, confidence: Confidence)

  datatype Observation = Observation(id: nat, observer: nat, event: nat, confidence: Confidence, at: int)

  // What a belief identifier is derived from.
  datatype Seed = Seed(observer: nat, observation: nat, key: string, value: Value)

  type Naming = Seed -> string

  ghost predicate Injective(name: Naming) {
    forall a, b :: name(a) == name(b) ==> a == b
  }

  function SeedOf(o: Observation, c: Claim): Seed {
    Seed(o.observer, o.id, c.key, c.value)
  }

  function Formed(name: Naming, o: Observation, c: Claim): Belief {
    Belief(name(SeedOf(o, c)), o.observer, c.key, c.value, Product(o.confidence, c.confidence), o.id, o.at, None)
  }

  function Strengthened(prior: Belief, o: Observation, c: Claim): Belief {
    prior.(confidence := NoisyOr(prior.confidence, Product(o.confidence, c.confidence)), source := o.id,
           updated := o.at)
  }

  function Contradicted(prior: Belief, o: Observation): Belief {
    prior.(contradictedBy := Some(o.event), updated := o.at)
  }

  // The beliefs in force, by key, and the contradicted ones.
  datatype Standing = Standing(active: map<string, Belief>, superseded: seq<Belief>)

  function Asserted(name: Naming, o: Observation, c: Claim, active: map<string, Belief>): Belief {
    if c.key in active && active[c.key].value == c.value then Strengthened(active[c.key], o, c) else Formed(name, o, c)
  }

  function Displaced(o: Observation, c: Claim, active: map<string, Belief>): seq<Belief> {
    if c.key in active && active[c.key].value != c.value then [Contradicted(active[c.key], o)] else []
  }

  function After(name: Naming, o: Observation, s: Standing, c: Claim): Standing {
    Standing(s.active[c.key := Asserted(name, o, c, s.active)], s.superseded + Displaced(o, c, s.active))
  }

  function AfterAll(name: Naming, o: Observation, s: Standing, claims: seq<Claim>): Standing {
    if claims == [] then s
    else After(name, o, AfterAll(name, o, s, claims[..|claims| - 1]), claims[|claims| - 1])
  }

  function StandingOf(beliefs: seq<Belief>): Standing {
    if beliefs == [] then Standing(map[], [])
    else
      var s, b := StandingOf(beliefs[..|beliefs| - 1]), beliefs[|beliefs| - 1];
      if b.contradictedBy.None? then s.(active := s.active[b.key := b]) else s.(superseded := s.superseded + [b])
  }

  predicate DistinctClaims(claims: seq<Claim>) {
    forall i, j :: 0 <= i < j < |claims| ==> claims[i].key != claims[j].key
  }

  datatype Revision = Revision(active: seq<Belief>, superseded: seq<Belief>)

  function InKeyOrder(active: map<string, Belief>): seq<Belief> {
    var keys := SortedNames(active.Keys);
    seq(|keys|, i requires 0 <= i < |keys| => assert keys[i] in Names(keys); active[keys[i]])
  }

  function Revised(name: Naming, o: Observation, claims: seq<Claim>, existing: seq<Belief>): Option<Revision> {
    if !DistinctClaims(claims) then None
    else
      var s := AfterAll(name, o, StandingOf(existing), SortBy((c: Claim) => c.key, claims));
      Some(Revision(InKeyOrder(s.active), SortBy((b: Belief) => b.id, s.superseded)))
  }

  // A dictionary from a listing; of two entries with one identifier the later wins.
  function ById(beliefs: seq<Belief>): map<string, Belief> {
    if beliefs == [] then map[]
    else ById(beliefs[..|beliefs| - 1])[beliefs[|beliefs| - 1].id := beliefs[|beliefs| - 1]]
  }

  // The beliefs a revision leaves in the mind.
  function Projected(r: Revision): seq<Belief> {
    var byId := ById(r.active + r.superseded);
    var ids := SortedNames(byId.Keys);
    seq(|ids|, i requires 0 <= i < |ids| => assert ids[i] in Names(ids); byId[ids[i]])
  }

  method Revise(name: Naming, o: Observation, claims: seq<Claim>, existing: seq<Belief>) returns (r: Option<Revision>)
    ensures r == Revised(name, o, claims, existing)
  {
    if !DistinctClaims(claims) { return None; }
    var active: map<string, Belief>, superseded: seq<Belief> := map[], [];
    for i := 0 to |existing|
      invariant Standing(active, superseded) == StandingOf(existing[..i])
    {
      assert existing[..i + 1][..i] == existing[..i];
      if existing[i].contradictedBy.None? {
        active := active[existing[i].key := existing[i]];
      } else {
        superseded := superseded + [existing[i]];
      }
    }
    assert existing[..|existing|] == existing;
    var sorted := SortBy((c: Claim) => c.key, claims);
    for i := 0 to |sorted|
      invariant Standing(active, superseded) == AfterAll(name, o, StandingOf(existing), sorted[..i])
    {
      assert sorted[..i + 1][..i] == sorted[..i];
      var claim := sorted[i];
      var confidence := Product(o.confidence, claim.confidence);
      if claim.key in active && active[claim.key].value == claim.value {
        var prior := active[claim.key];
        active := active[claim.key := prior.(
          confidence := NoisyOr(prior.confidence, confidence), source := o.id, updated := o.at)];
      } else {
        if claim.key in active {
          superseded := superseded + [active[claim.key].(contradictedBy := Some(o.event), updated := o.at)];
        }
        active := active[claim.key := Belief(
          name(Seed(o.observer, o.id, claim.key, claim.value)), o.observer, claim.key, claim.value, confidence,
          o.id, o.at, None)];
      }
    }
    assert sorted[..|sorted|] == sorted;
    return Some(Revision(InKeyOrder(active), SortBy((b: Belief) => b.id, superseded)));
  }
}
