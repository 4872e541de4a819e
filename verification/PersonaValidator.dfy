/** The persona validator: one walk over the ordered dimensions, then the rules. */
module PersonaValidator {
  import opened Wrappers
  import opened TextSets
  import opened DependencyOrder
  import opened PersonaSchema

  datatype Finding =
    | UnknownNames(names: set<string>)
    | Inactive(name: string)
    | Missing(name: string)
    | BadValue(name: string)
    | RuleBroken(error: RuleError)

  datatype Walk = Walk(findings: seq<Finding>, active: seq<string>, known: Values)

  function Step(reg: Registry, w: Walk, name: string, given: Values, complete: bool): Walk
    requires name in reg.dims
  {
    var spec := reg.dims[name];
    if !Enabled(spec, w.known) then
      if name in given then w.(findings := w.findings + [Inactive(name)]) else w
    else
      var here := w.(active := w.active + [name]);
      if name !in given then (if complete then here.(findings := here.findings + [Missing(name)]) else here)
      else if !ValidValue(spec, given[name]) then here.(findings := here.findings + [BadValue(name)])
      else here.(known := here.known[name := given[name]])
  }

  function Walked(reg: Registry, order: seq<string>, given: Values, complete: bool): Walk
    requires Names(order) <= reg.dims.Keys
  {
    if order == [] then Walk([], [], map[])
    else
      assert order[|order| - 1] in Names(order);
      Step(reg, Walked(reg, order[..|order| - 1], given, complete), order[|order| - 1], given, complete)
  }

  function Broken(errors: seq<RuleError>): seq<Finding> {
    seq(|errors|, i requires 0 <= i < |errors| => RuleBroken(errors[i]))
  }

  function Checked(reg: Registry, order: seq<string>, given: Values, complete: bool): (seq<Finding>, seq<string>)
    requires Names(order) <= reg.dims.Keys
  {
    var unknown := given.Keys - reg.dims.Keys;
    var walk := Walked(reg, order, given, complete);
    ((if unknown == {} then [] else [UnknownNames(unknown)])
     + walk.findings + Broken(RuleErrors(reg.rules, given, !complete)),
     walk.active)
  }

  method Visit(reg: Registry, order: seq<string>, given: Values, complete: bool)
    returns (findings: seq<Finding>, active: seq<string>, known: Values)
    requires Names(order) <= reg.dims.Keys
    ensures Walk(findings, active, known) == Walked(reg, order, given, complete)
  {
    findings, active, known := [], [], map[];
    for i := 0 to |order|
      invariant Names(order[..i]) <= reg.dims.Keys
      invariant Walk(findings, active, known) == Walked(reg, order[..i], given, complete)
    {
      assert order[..i + 1][..i] == order[..i];
      var name := order[i];
      assert name in Names(order);
      var spec := reg.dims[name];
      if !Enabled(spec, known) {
        if name in given { findings := findings + [Inactive(name)]; }
      } else {
        active := active + [name];
        if name !in given {
          if complete { findings := findings + [Missing(name)]; }
        } else if !ValidValue(spec, given[name]) {
          findings := findings + [BadValue(name)];
        } else {
          known := known[name := given[name]];
        }
      }
    }
    assert order[..|order|] == order;
  }

  method ValidateDimensions(reg: Registry, given: Values, complete: bool)
    returns (findings: seq<Finding>, active: seq<string>)
    requires Accepted(reg)
    ensures Order(reg).Some? && Names(Order(reg).value) <= reg.dims.Keys
    ensures (findings, active) == Checked(reg, Order(reg).value, given, complete)
  {
    GraphClosed(reg);
    AcceptedIsOrdered(reg);
    var ordered := Ordered(DependencyGraph(reg));
    var unknown := given.Keys - reg.dims.Keys;
    findings := if unknown == {} then [] else [UnknownNames(unknown)];
    var found, walked, _ := Visit(reg, ordered.value, given, complete);
    var errors := ConstraintErrors(reg, given, !complete);
    findings := findings + found + Broken(errors);
    active := walked;
  }

  /* ---- What a walk finds ---- */

  // The values the walk has accepted before it comes to a dimension.
  ghost function KnownBefore(reg: Registry, order: seq<string>, given: Values, complete: bool, i: nat): Values
    requires Names(order) <= reg.dims.Keys && i <= |order|
  {
    assert Names(order[..i]) <= Names(order);
    Walked(reg, order[..i], given, complete).known
  }

  // What is wrong with the i-th dimension: a value although switched off, no value although needed, or an invalid one.
  ghost predicate FoundAt(reg: Registry, order: seq<string>, given: Values, complete: bool, i: nat, f: Finding)
    requires Names(order) <= reg.dims.Keys && i < |order|
  {
    assert order[i] in Names(order);
    var spec, on := reg.dims[order[i]], Enabled(reg.dims[order[i]], KnownBefore(reg, order, given, complete, i));
    || (f == Inactive(order[i]) && !on && order[i] in given)
    || (f == Missing(order[i]) && on && order[i] !in given && complete)
    || (f == BadValue(order[i]) && on && order[i] in given && !ValidValue(spec, given[order[i]]))
  }

  // The i-th dimension has a valid value, and is switched on by what is known before.
  ghost predicate AcceptedAt(reg: Registry, order: seq<string>, given: Values, complete: bool, i: nat)
    requires Names(order) <= reg.dims.Keys && i < |order|
  {
    assert order[i] in Names(order);
    && order[i] in given && ValidValue(reg.dims[order[i]], given[order[i]])
    && Enabled(reg.dims[order[i]], KnownBefore(reg, order, given, complete, i))
  }

  lemma FrontBefore(reg: Registry, order: seq<string>, given: Values, complete: bool, i: nat)
    requires Names(order) <= reg.dims.Keys && i < |order|
    ensures Names(order[..|order| - 1]) <= reg.dims.Keys
    ensures KnownBefore(reg, order[..|order| - 1], given, complete, i) == KnownBefore(reg, order, given, complete, i)
  {
    assert Names(order[..|order| - 1]) <= Names(order);
    assert order[..|order| - 1][..i] == order[..i];
  }

  lemma StepFinds(reg: Registry, w: Walk, name: string, given: Values, complete: bool, f: Finding)
    requires name in reg.dims
    ensures f in Step(reg, w, name, given, complete).findings <==>
            || f in w.findings
            || (f == Inactive(name) && !Enabled(reg.dims[name], w.known) && name in given)
            || (f == Missing(name) && Enabled(reg.dims[name], w.known) && name !in given && complete)
            || (f == BadValue(name) && Enabled(reg.dims[name], w.known) && name in given
                && !ValidValue(reg.dims[name], given[name]))
  {
    var found := Step(reg, w, name, given, complete).findings;
    assert found == w.findings || found == w.findings + [found[|found| - 1]];
    assert f in found <==> f in w.findings || (found != w.findings && f == found[|found| - 1]);
  }

  /** The walk reports exactly what is wrong, dimension by dimension. */
  lemma {:induction false} WalkFinds(reg: Registry, order: seq<string>, given: Values, complete: bool, f: Finding)
    requires Names(order) <= reg.dims.Keys
    ensures f in Walked(reg, order, given, complete).findings <==>
            exists i: nat :: i < |order| && FoundAt(reg, order, given, complete, i, f)
  {
    if order != [] {
      var n := |order| - 1;
      var front := order[..n];
      FrontBefore(reg, order, given, complete, n);
      WalkFinds(reg, front, given, complete, f);
      assert order[n] in Names(order);
      StepFinds(reg, Walked(reg, front, given, complete), order[n], given, complete, f);
      assert Walked(reg, order, given, complete).findings ==
             Step(reg, Walked(reg, front, given, complete), order[n], given, complete).findings;
      assert f in Walked(reg, order, given, complete).findings <==>
             f in Walked(reg, front, given, complete).findings || FoundAt(reg, order, given, complete, n, f);
      forall i: nat | i < n
        ensures FoundAt(reg, order, given, complete, i, f) <==> FoundAt(reg, front, given, complete, i, f)
      {
        FrontBefore(reg, order, given, complete, i);
      }
    }
  }

  lemma StepKnows(reg: Registry, w: Walk, name: string, given: Values, complete: bool)
    requires name in reg.dims
    ensures var known := Step(reg, w, name, given, complete).known;
            if name in given && ValidValue(reg.dims[name], given[name]) && Enabled(reg.dims[name], w.known)
            then known == w.known[name := given[name]] else known == w.known
  {
  }

  /** What the walk knows are the given values of exactly the dimensions it accepted. */
  lemma {:induction false} WalkKnows(reg: Registry, order: seq<string>, given: Values, complete: bool, name: string)
    requires Names(order) <= reg.dims.Keys
    ensures var known := Walked(reg, order, given, complete).known;
            && (name in known <==>
                exists i: nat :: i < |order| && order[i] == name && AcceptedAt(reg, order, given, complete, i))
            && (name in known ==> name in given && known[name] == given[name])
  {
    if order != [] {
      var n := |order| - 1;
      var front := order[..n];
      FrontBefore(reg, order, given, complete, n);
      WalkKnows(reg, front, given, complete, name);
      assert order[n] in Names(order);
      StepKnows(reg, Walked(reg, front, given, complete), order[n], given, complete);
      forall i: nat | i < n
        ensures AcceptedAt(reg, order, given, complete, i) <==> AcceptedAt(reg, front, given, complete, i)
      {
        FrontBefore(reg, order, given, complete, i);
      }
    }
  }

  /* ---- What a clean walk says ---- */

  // The part of an assignment that concerns the given names.
  function Upto(values: Values, names: set<string>): Values {
    map n | n in values && n in names :: values[n]
  }

  // Every dimension has a value exactly when it is enabled by the values before it, and the value is of its kind.
  ghost predicate Consistent(reg: Registry, order: seq<string>, values: Values)
    requires Names(order) <= reg.dims.Keys
  {
    forall i :: 0 <= i < |order| ==> PlacedAt(reg, order, i, values)
  }

  ghost predicate PlacedAt(reg: Registry, order: seq<string>, i: nat, values: Values)
    requires Names(order) <= reg.dims.Keys && i < |order|
  {
    var name := order[i];
    assert name in Names(order);
    && (name in values <==> Enabled(reg.dims[name], Upto(values, Names(order[..i]))))
    && (name in values ==> ValidValue(reg.dims[name], values[name]))
  }

  function Held(order: seq<string>, values: Values): seq<string> {
    if order == [] then []
    else Held(order[..|order| - 1], values) + if order[|order| - 1] in values then [order[|order| - 1]] else []
  }

  lemma ConsistentFront(reg: Registry, order: seq<string>, values: Values)
    requires Names(order) <= reg.dims.Keys && order != [] && Consistent(reg, order, values)
    ensures Names(order[..|order| - 1]) <= reg.dims.Keys && Consistent(reg, order[..|order| - 1], values)
  {
    var front := order[..|order| - 1];
    assert Names(front) <= Names(order);
    forall i | 0 <= i < |front| ensures PlacedAt(reg, front, i, values) {
      assert front[..i] == order[..i];
      assert PlacedAt(reg, order, i, values);
    }
  }

  /**
   * The walk over a consistent assignment finds nothing wrong and activates exactly the dimensions that have values.
   */
  lemma {:induction false} ConsistentWalk(reg: Registry, order: seq<string>, values: Values, complete: bool)
    requires Names(order) <= reg.dims.Keys && Consistent(reg, order, values)
    ensures Walked(reg, order, values, complete) == Walk([], Held(order, values), Upto(values, Names(order)))
  {
    if order != [] {
      var front, last := order[..|order| - 1], order[|order| - 1];
      ConsistentFront(reg, order, values);
      ConsistentWalk(reg, front, values, complete);
      assert order == front + [last];
      PrefixNames(front, last);
      assert PlacedAt(reg, order, |order| - 1, values);
      var known := Upto(values, Names(front));
      if last in values {
        assert known[last := values[last]] == Upto(values, Names(order));
      } else {
        assert known == Upto(values, Names(order));
      }
    } else {
      assert Upto(values, Names([])) == map[];
    }
  }

  /** Conversely, a complete walk that finds nothing wrong has walked a consistent assignment. */
  lemma {:induction false} CleanIsConsistent(reg: Registry, order: seq<string>, values: Values)
    requires Names(order) <= reg.dims.Keys && Walked(reg, order, values, true).findings == []
    ensures Consistent(reg, order, values)
  {
    if order != [] {
      var front, last := order[..|order| - 1], order[|order| - 1];
      assert Names(front) <= Names(order);
      CleanIsConsistent(reg, front, values);
      ConsistentWalk(reg, front, values, true);
      forall i | 0 <= i < |order| ensures PlacedAt(reg, order, i, values) {
        if i < |front| {
          assert front[..i] == order[..i];
          assert PlacedAt(reg, front, i, values);
        }
      }
    }
  }
}
