/** What the generator and the validator promise each other, and when the look-ahead is right to give up a value. */
module PersonaTheorems {
  import opened Wrappers
  import opened TextSets
  import opened DependencyOrder
  import opened PersonaSchema
  import opened PersonaValidator
  import opened PersonaGenerator

  lemma {:induction false} HeldNames(order: seq<string>, values: Values)
    ensures Names(Held(order, values)) == Names(order) * values.Keys
  {
    if order == [] {
      NoNames();
    } else {
      var front, last := order[..|order| - 1], order[|order| - 1];
      HeldNames(front, values);
      assert order == front + [last];
      PrefixNames(front, last);
      if last in values {
        PrefixNames(Held(front, values), last);
      } else {
        assert Held(order, values) == Held(front, values);
      }
    }
  }

  // A finding that can still appear: a fired rule that requires dimensions which were left out.
  ghost predicate MissingRequirement(f: Finding, values: Values) {
    f.RuleBroken? && OnlyMissing(f.error.violations, values)
  }

  /**
   * The final check of the generator, whatever was drawn: the validator activates exactly the generated dimensions,
   * and all it can report are fired rules requiring a dimension that is inactive.
   */
  lemma FinalCheck(reg: Registry, values: Values, fixed: Values, dists: Distributions, defaults: bool)
    requires Accepted(reg)
    requires Order(reg).Some? && Names(Order(reg).value) <= reg.dims.Keys
    requires Generated(reg, Order(reg).value, values, fixed, dists, defaults)
    ensures var (findings, active) := Checked(reg, Order(reg).value, values, true);
            && Names(active) == values.Keys && |active| == |Held(Order(reg).value, values)|
            && forall i :: 0 <= i < |findings| ==> MissingRequirement(findings[i], values)
  {
    var order := Order(reg).value;
    ConsistentWalk(reg, order, values, true);
    HeldNames(order, values);
    UncontradictedErrors(reg.rules, values);
    assert values.Keys - reg.dims.Keys == {};
    var errors := RuleErrors(reg.rules, values, false);
    forall i | 0 <= i < |errors| ensures MissingRequirement(Broken(errors)[i], values) {
      assert OnlyMissing(errors[i].violations, values);
    }
  }

  /* ---- When generation cannot fail ---- */

  // Whatever number is drawn for the dimension is a valid one.
  ghost predicate Tame(spec: Spec) {
    match spec.kind
    case Integer =>
      Truncated(Bound(spec.minimum, 0.0)) <= Truncated(Bound(spec.maximum, 100.0))
      && forall n :: InRange(spec, n) ==> ValidValue(spec, Whole(n))
    case Number => forall x :: NearRange(spec, x) ==> ValidValue(spec, Fraction(x))
    case _ => true
  }

  lemma SomeNumber(spec: Spec)
    ensures exists x :: NearRange(spec, x)
  {
    var a, b := Bound(spec.minimum, 0.0), Bound(spec.maximum, 1.0);
    var low := if a <= b then a else b;
    var k := (low * 10000.0 + 0.5).Floor;
    assert NearRange(spec, TenThousandths(k));
  }

  // Without rules, and with nothing asked for, something can be drawn for every dimension, and all of it fits.
  lemma FreeDimension(reg: Registry, name: string, values: Values, defaults: bool) returns (v: Value)
    requires WellFormed(reg) && reg.rules == [] && name in reg.dims && (defaults || Tame(reg.dims[name]))
    ensures CanDraw(reg, name, v, values, map[], map[], defaults)
    ensures forall w :: CanDraw(reg, name, w, values, map[], map[], defaults) ==> Fits(reg, name, w, values)
  {
    var spec := reg.dims[name];
    assert SpecOk(reg, spec);
    if defaults {
      v := spec.preset;
    } else if spec.kind == Integer {
      v := Whole(Truncated(Bound(spec.minimum, 0.0)));
    } else if spec.kind == Number {
      SomeNumber(spec);
      var x :| NearRange(spec, x);
      v := Fraction(x);
    } else {
      v := spec.preset;
      PresetIsCandidate(spec);
      assert Drawable(reg, name, v, Candidates(spec), values, map[], map[]);
    }
  }

  lemma PresetIsCandidate(spec: Spec)
    requires spec.kind in {Enum, Boolean} && ValidValue(spec, spec.preset)
    ensures spec.preset in Candidates(spec)
    ensures forall v :: v in Candidates(spec) ==> ValidValue(spec, v)
  {
    if spec.kind == Boolean {
      assert Candidates(spec)[0] == Flag(false) && Candidates(spec)[1] == Flag(true);
    } else {
      var i :| 0 <= i < |spec.values| && spec.values[i] == spec.preset.s;
      assert Candidates(spec)[i] == spec.preset;
    }
  }

  lemma NothingStops(reg: Registry, order: seq<string>, i: nat, values: Values, defaults: bool, e: Failure)
    requires WellFormed(reg) && reg.rules == [] && Names(order) <= reg.dims.Keys
    requires defaults || forall name :: name in reg.dims ==> Tame(reg.dims[name])
    ensures !StopsAt(reg, order, i, values, map[], map[], defaults, e)
  {
    if i < |order| && order[i] in reg.dims {
      var v := FreeDimension(reg, order[i], values, defaults);
      assert !Fails(reg, order[i], values, map[], map[], defaults, e);
    }
  }

  lemma NoRulesPassFinalCheck(reg: Registry, values: Values, defaults: bool)
    requires Accepted(reg) && reg.rules == []
    requires Order(reg).Some? && Names(Order(reg).value) <= reg.dims.Keys
    requires Generated(reg, Order(reg).value, values, map[], map[], defaults)
    ensures Checked(reg, Order(reg).value, values, true).0 == []
  {
    FinalCheckFailsIff(reg, values, map[], map[], defaults);
  }

  lemma EmptyRequestIsNotRefused(reg: Registry)
    requires reg.rules == []
    ensures !Refused(reg, map[], map[])
  {
  }

  /**
   * A schema without rules always yields a persona when nothing is fixed or distributed: with presets, and otherwise if
   * whatever number is drawn is valid, as it is trivially for a schema of enum and boolean dimensions.
   */
  lemma FreeGenerationCannotFail(reg: Registry, defaults: bool, e: Failure)
    requires Accepted(reg) && reg.rules == [] && (defaults || forall name :: name in reg.dims ==> Tame(reg.dims[name]))
    ensures Order(reg).Some? && Names(Order(reg).value) <= reg.dims.Keys
    ensures !GenerationFails(reg, Order(reg).value, map[], map[], defaults, e)
  {
    AcceptedIsOrdered(reg);
    var order := Order(reg).value;
    EmptyRequestIsNotRefused(reg);
    forall i: nat, values ensures !StopsAt(reg, order, i, values, map[], map[], defaults, e) {
      NothingStops(reg, order, i, values, defaults, e);
    }
    forall values | Generated(reg, order, values, map[], map[], defaults)
      ensures Checked(reg, order, values, true).0 == []
    {
      NoRulesPassFinalCheck(reg, values, defaults);
    }
  }

  /** A value drawn for a parent leaves every dimension that was fixed or given a distribution switched on. */
  lemma DrawnLeavesOn(reg: Registry, name: string, v: Value, values: Values, fixed: Values, dists: Distributions,
                      child: string)
    requires name in reg.dims && name !in fixed && reg.dims[name].kind in {Enum, Boolean}
    requires CanDraw(reg, name, v, values, fixed, dists, false)
    requires child in reg.dims && (child in fixed || child in dists) && name in reg.dims[child].dependsOn
    ensures v in reg.dims[child].dependsOn[name]
  {
    assert child in fixed.Keys + dists.Keys;
  }

  // Fixed values that cannot stand: an invalid one, a child that its fixed parent switches off, a contradicted rule.
  predicate Untenable(reg: Registry, fixed: Values) {
    || (exists name :: name in fixed && name in reg.dims && !ValidValue(reg.dims[name], fixed[name]))
    || (exists name, parent :: name in fixed && name in reg.dims && parent in reg.dims[name].dependsOn
                               && parent in fixed && fixed[parent] !in reg.dims[name].dependsOn[parent])
    || (exists i :: 0 <= i < |reg.rules| && Contradicts(reg.rules[i], fixed))
  }

  /** What is asked for is refused exactly if it names unknown dimensions, or one twice, or cannot stand. */
  lemma RefusedIff(reg: Registry, fixed: Values, dists: Distributions)
    ensures Refused(reg, fixed, dists) <==>
            || (exists name :: name in fixed && name !in reg.dims)
            || (exists name :: name in dists && name !in reg.dims)
            || (exists name :: name in fixed && name in dists)
            || Untenable(reg, fixed)
  {
    PartialErrors(reg.rules, fixed);
    if fixed.Keys <= reg.dims.Keys && dists.Keys <= reg.dims.Keys {
      assert fixed.Keys + dists.Keys <= reg.dims.Keys;
    }
  }

  /** With presets the persona has the preset of exactly the dimensions that it enables itself. */
  lemma PresetsAreGenerated(reg: Registry, values: Values)
    requires Accepted(reg)
    requires Order(reg).Some? && Names(Order(reg).value) <= reg.dims.Keys
    requires Generated(reg, Order(reg).value, values, map[], map[], true)
    ensures forall name :: name in values ==> name in reg.dims && values[name] == reg.dims[name].preset
    ensures forall name :: name in reg.dims ==> (name in values <==> Enabled(reg.dims[name], values))
  {
    AcceptedIsOrdered(reg);
    forall name | name in reg.dims ensures name in values <==> Enabled(reg.dims[name], values) {
      EnabledHere(reg, values, name);
    }
  }

  // Parents come before, so what enables a dimension is settled when it is its turn.
  lemma EnabledHere(reg: Registry, values: Values, name: string)
    requires Accepted(reg) && name in reg.dims
    requires Order(reg).Some? && Names(Order(reg).value) == reg.dims.Keys && Consistent(reg, Order(reg).value, values)
    ensures name in values <==> Enabled(reg.dims[name], values)
  {
    var order := Order(reg).value;
    assert name in Names(order);
    var i :| 0 <= i < |order| && order[i] == name;
    assert PlacedAt(reg, order, i, values);
    if name in reg.dims[name].dependsOn {
      SelfDependent(reg, order, i, values);
      return;
    }
    forall parent | parent in reg.dims[name].dependsOn
      ensures Get(Upto(values, Names(order[..i])), parent) == Get(values, parent)
    {
      ParentBefore(reg, order, i, parent);
    }
  }

  // A dimension that depends on itself is never enabled.
  lemma SelfDependent(reg: Registry, order: seq<string>, i: nat, values: Values)
    requires Accepted(reg) && Order(reg) == Some(order) && Names(order) <= reg.dims.Keys && i < |order|
    requires order[i] in reg.dims && order[i] in reg.dims[order[i]].dependsOn && PlacedAt(reg, order, i, values)
    ensures order[i] !in values && !Enabled(reg.dims[order[i]], values)
  {
    AcceptedIsOrdered(reg);
    NullNotAllowed(reg, order[i], order[i]);
    assert order[i] !in Names(order[..i]);
  }

  lemma ParentBefore(reg: Registry, order: seq<string>, i: nat, parent: string)
    requires Accepted(reg) && Order(reg) == Some(order) && i < |order| && order[i] in reg.dims
    requires parent in reg.dims[order[i]].dependsOn && parent != order[i]
    ensures parent in Names(order[..i])
  {
    AcceptedIsOrdered(reg);
    ParentIsDependency(reg, order[i], parent);
    DependenciesBefore(DependencyGraph(reg), order, i);
  }

  lemma ParentIsDependency(reg: Registry, name: string, parent: string)
    requires name in reg.dims && parent in reg.dims[name].dependsOn && parent != name
    ensures name in DependencyGraph(reg) && parent in DependencyGraph(reg)[name]
  {
  }

  lemma DependenciesBefore(g: Graph, order: seq<string>, i: nat)
    requires Topological(g, order) && i < |order|
    ensures order[i] in g && g[order[i]] <= Names(order[..i])
  {
  }

  // A rule that fires requires a dimension that was left out.
  predicate LeftOut(rules: seq<Rule>, values: Values, i: nat)
    requires i < |rules|
  {
    Fired(rules[i], values) && exists j :: 0 <= j < |rules[i].require| && rules[i].require[j].name !in values
  }

  lemma {:induction false} RequiresFull(clauses: seq<Clause>, values: Values)
    requires RequireViolations(clauses, values, true) == []
    ensures RequireViolations(clauses, values, false) != [] <==>
            exists j :: 0 <= j < |clauses| && clauses[j].name !in values
  {
    if clauses != [] {
      var front := clauses[..|clauses| - 1];
      RequiresFull(front, values);
      forall j | 0 <= j < |front| ensures front[j] == clauses[j] {}
    }
  }

  lemma LeftOutRule(rules: seq<Rule>, values: Values, i: nat)
    requires i < |rules| && Violations(rules[i], values, true) == []
    ensures LeftOut(rules, values, i) <==> Violations(rules[i], values, false) != []
  {
    if Fired(rules[i], values) { RequiresFull(rules[i].require, values); }
  }

  ghost predicate SomeLeftOut(rules: seq<Rule>, values: Values) {
    exists i :: 0 <= i < |rules| && LeftOut(rules, values, i)
  }

  lemma LeftOutMore(rules: seq<Rule>, values: Values)
    requires rules != []
    ensures SomeLeftOut(rules, values) <==>
            SomeLeftOut(rules[..|rules| - 1], values) || LeftOut(rules, values, |rules| - 1)
  {
    var front := rules[..|rules| - 1];
    forall i | 0 <= i < |front| ensures LeftOut(front, values, i) <==> LeftOut(rules, values, i) {
      assert front[i] == rules[i];
    }
  }

  lemma {:induction false} LeftOutErrors(rules: seq<Rule>, values: Values)
    requires RuleErrors(rules, values, true) == []
    ensures RuleErrors(rules, values, false) != [] <==> SomeLeftOut(rules, values)
  {
    if rules != [] {
      var front, last := rules[..|rules| - 1], rules[|rules| - 1];
      assert RuleErrors(front, values, true) == [] && Violations(last, values, true) == [];
      LeftOutErrors(front, values);
      LeftOutRule(rules, values, |rules| - 1);
      LeftOutMore(rules, values);
    }
  }

  /** The final check reports something if and only if a rule that fires requires a dimension that was left out. */
  lemma FinalCheckFailsIff(reg: Registry, values: Values, fixed: Values, dists: Distributions, defaults: bool)
    requires Accepted(reg)
    requires Order(reg).Some? && Names(Order(reg).value) <= reg.dims.Keys
    requires Generated(reg, Order(reg).value, values, fixed, dists, defaults)
    ensures Checked(reg, Order(reg).value, values, true).0 != [] <==>
            SomeLeftOut(reg.rules, values)
  {
    ConsistentWalk(reg, Order(reg).value, values, true);
    assert values.Keys - reg.dims.Keys == {};
    assert |Broken(RuleErrors(reg.rules, values, false))| == |RuleErrors(reg.rules, values, false)|;
    LeftOutErrors(reg.rules, values);
  }

  // Rules only require dimensions that exist whatever the others are.
  predicate RequiresRoots(reg: Registry) {
    forall i, j :: 0 <= i < |reg.rules| && 0 <= j < |reg.rules[i].require| ==>
      reg.rules[i].require[j].name in reg.dims && reg.dims[reg.rules[i].require[j].name].dependsOn == map[]
  }

  lemma RootIsGenerated(reg: Registry, order: seq<string>, values: Values, name: string)
    requires Names(order) <= reg.dims.Keys && Consistent(reg, order, values)
    requires name in Names(order) && reg.dims[name].dependsOn == map[]
    ensures name in values
  {
    var i :| 0 <= i < |order| && order[i] == name;
    assert PlacedAt(reg, order, i, values);
  }

  /** Then the final check cannot fail, whatever is asked for and drawn. */
  lemma RootsPassFinalCheck(reg: Registry, values: Values, fixed: Values, dists: Distributions, defaults: bool)
    requires Accepted(reg) && RequiresRoots(reg)
    requires Order(reg).Some? && Names(Order(reg).value) <= reg.dims.Keys
    requires Generated(reg, Order(reg).value, values, fixed, dists, defaults)
    ensures Checked(reg, Order(reg).value, values, true).0 == []
  {
    AcceptedIsOrdered(reg);
    FinalCheckFailsIff(reg, values, fixed, dists, defaults);
    forall i | 0 <= i < |reg.rules| ensures !LeftOut(reg.rules, values, i) {
      forall j | 0 <= j < |reg.rules[i].require| ensures reg.rules[i].require[j].name in values {
        RootIsGenerated(reg, Order(reg).value, values, reg.rules[i].require[j].name);
      }
    }
  }

  /* ---- Look-ahead ---- */

  predicate Choosable(reg: Registry, name: string) {
    name in reg.dims && reg.dims[name].kind in {Enum, Boolean}
  }

  // What the generator makes of fixed values and distributions; it draws numbers without looking at a distribution.
  ghost predicate Respects(reg: Registry, full: Values, fixed: Values, dists: Distributions) {
    && (forall n :: n in fixed ==> n in full && full[n] == fixed[n])
    && (forall n :: n in dists ==> n in full && (Choosable(reg, n) ==> WeightOf(dists[n], full[n]) > 0.0))
  }

  // A way to finish that keeps the value, follows the fixed values and distributions, and passes validation.
  ghost predicate Completes(reg: Registry, current: Values, fixed: Values, dists: Distributions, full: Values)
    requires Order(reg).Some? && Names(Order(reg).value) <= reg.dims.Keys
  {
    Extends(full, current) && Respects(reg, full, fixed, dists) && Checked(reg, Order(reg).value, full, true).0 == []
  }

  ghost predicate Completable(reg: Registry, current: Values, fixed: Values, dists: Distributions)
    requires Order(reg).Some? && Names(Order(reg).value) <= reg.dims.Keys
  {
    exists full :: Completes(reg, current, fixed, dists, full)
  }

  lemma CompletionIsClean(reg: Registry, current: Values, fixed: Values, dists: Distributions, full: Values)
    requires Order(reg).Some? && Names(Order(reg).value) <= reg.dims.Keys
    requires Completes(reg, current, fixed, dists, full)
    ensures RuleErrors(reg.rules, full, false) == [] && full.Keys <= reg.dims.Keys
    ensures Consistent(reg, Order(reg).value, full)
  {
    var unknown := full.Keys - reg.dims.Keys;
    var errors := RuleErrors(reg.rules, full, false);
    EmptyParts(if unknown == {} then [] else [UnknownNames(unknown)],
               Walked(reg, Order(reg).value, full, true).findings, Broken(errors));
    assert |Broken(errors)| == |errors|;
    forall n | n in full ensures n in reg.dims { assert n !in unknown; }
    CleanIsConsistent(reg, Order(reg).value, full);
  }

  lemma EmptyParts(a: seq<Finding>, b: seq<Finding>, c: seq<Finding>)
    requires a + b + c == []
    ensures a == [] && b == [] && c == []
  {
    assert |a + b + c| == |a| + |b| + |c|;
  }

  lemma NullNotAllowed(reg: Registry, child: string, parent: string)
    requires WellFormed(reg) && child in reg.dims && parent in reg.dims[child].dependsOn
    ensures Null !in reg.dims[child].dependsOn[parent]
  {
    assert SpecOk(reg, reg.dims[child]) && ClauseOk(reg, Clause(parent, reg.dims[child].dependsOn[parent]));
    assert parent in reg.dims && !ValidValue(reg.dims[parent], Null);
  }

  lemma UncontradictedByFull(reg: Registry, full: Values, i: nat)
    requires i < |reg.rules| && RuleErrors(reg.rules, full, false) == []
    ensures !Contradicts(reg.rules[i], full)
  {
    PartialErrors(reg.rules, full);
    if RuleErrors(reg.rules, full, true) != [] { PartialErrorsAreFull(reg.rules, full); }
  }

  // A dimension with a value is enabled, so its parent has an allowed value.
  lemma ParentAllows(reg: Registry, full: Values, child: string, parent: string)
    requires WellFormed(reg) && Order(reg).Some? && Names(Order(reg).value) == reg.dims.Keys
    requires Consistent(reg, Order(reg).value, full)
    requires child in full && child in reg.dims && parent in reg.dims[child].dependsOn
    ensures Get(full, parent) in reg.dims[child].dependsOn[parent]
  {
    var order := Order(reg).value;
    assert child in Names(order);
    var i :| 0 <= i < |order| && order[i] == child;
    assert PlacedAt(reg, order, i, full);
    NullNotAllowed(reg, child, parent);
    assert Get(Upto(full, Names(order[..i])), parent) in reg.dims[child].dependsOn[parent];
  }

  // A distribution the generator does not draw from as it stands: an empty one, or one on a number.
  predicate Undrawn(reg: Registry, name: string, dists: Distributions) {
    name in dists && (dists[name] == map[] || !Choosable(reg, name))
  }

  // Such a distribution that gives no weight to what the clause asks for.
  predicate RequireShut(reg: Registry, c: Clause, dists: Distributions) {
    Undrawn(reg, c.name, dists) && forall v :: v in dists[c.name] && dists[c.name][v] > 0.0 ==> v !in c.allowed
  }

  predicate ForbidShut(reg: Registry, c: Clause, dists: Distributions) {
    Undrawn(reg, c.name, dists) && forall v :: v in dists[c.name] && dists[c.name][v] > 0.0 ==> v in c.allowed
  }

  predicate AsksShut(reg: Registry, rule: Rule, dists: Distributions) {
    || (exists j :: 0 <= j < |rule.require| && RequireShut(reg, rule.require[j], dists))
    || (exists j :: 0 <= j < |rule.forbid| && ForbidShut(reg, rule.forbid[j], dists))
  }

  // A rule that already fires asks something that such a distribution shuts out.
  predicate Blocked(reg: Registry, proposed: Values, fixed: Values, dists: Distributions) {
    exists i :: 0 <= i < |reg.rules| && Fired(reg.rules[i], proposed + fixed) && AsksShut(reg, reg.rules[i], dists)
  }

  // A clause the completion meets was open all along, unless such a distribution shuts it out.
  lemma MetRequireIsOpen(reg: Registry, c: Clause, fixed: Values, dists: Distributions, full: Values)
    requires Respects(reg, full, fixed, dists)
    requires c.name in full ==> Met(c, full)
    ensures RequireOpen(c, fixed, dists) <==> !RequireShut(reg, c, dists)
  {
    if c.name in dists && !Undrawn(reg, c.name, dists) {
      var v := full[c.name];
      assert v in dists[c.name] && v in c.allowed && dists[c.name][v] > 0.0;
    }
  }

  lemma AvoidedForbidIsOpen(reg: Registry, c: Clause, fixed: Values, dists: Distributions, full: Values)
    requires Respects(reg, full, fixed, dists)
    requires !Met(c, full)
    ensures ForbidOpen(c, fixed, dists) <==> !ForbidShut(reg, c, dists)
  {
    if c.name in dists && !Undrawn(reg, c.name, dists) {
      var v := full[c.name];
      assert v in dists[c.name] && v !in c.allowed && dists[c.name][v] > 0.0;
    }
  }

  lemma SatisfiedRuleIsOpen(reg: Registry, rule: Rule, fixed: Values, dists: Distributions, full: Values)
    requires Respects(reg, full, fixed, dists) && Fired(rule, full) && !Contradicts(rule, full)
    ensures RuleOpen(rule, fixed, dists) <==> !AsksShut(reg, rule, dists)
  {
    forall j | 0 <= j < |rule.require|
      ensures RequireOpen(rule.require[j], fixed, dists) <==> !RequireShut(reg, rule.require[j], dists)
    {
      MetRequireIsOpen(reg, rule.require[j], fixed, dists, full);
    }
    forall j | 0 <= j < |rule.forbid|
      ensures ForbidOpen(rule.forbid[j], fixed, dists) <==> !ForbidShut(reg, rule.forbid[j], dists)
    {
      AvoidedForbidIsOpen(reg, rule.forbid[j], fixed, dists, full);
    }
  }

  lemma CompletionOpensRules(reg: Registry, proposed: Values, fixed: Values, dists: Distributions, full: Values)
    requires Extends(full, proposed) && Respects(reg, full, fixed, dists)
    requires RuleErrors(reg.rules, full, false) == []
    ensures AllowsFuture(reg, proposed, fixed, dists) <==> !Blocked(reg, proposed, fixed, dists)
  {
    forall i | 0 <= i < |reg.rules| && Fired(reg.rules[i], proposed + fixed)
      ensures RuleOpen(reg.rules[i], fixed, dists) <==> !AsksShut(reg, reg.rules[i], dists)
    {
      FiredStays(reg.rules[i], proposed + fixed, full);
      UncontradictedByFull(reg, full, i);
      SatisfiedRuleIsOpen(reg, reg.rules[i], fixed, dists, full);
    }
  }

  lemma CompletionAllowsDependencies(reg: Registry, name: string, v: Value, fixed: Values, dists: Distributions,
                                     full: Values)
    requires WellFormed(reg) && Order(reg).Some? && Names(Order(reg).value) == reg.dims.Keys
    requires Consistent(reg, Order(reg).value, full) && Respects(reg, full, fixed, dists)
    requires name in full && full[name] == v
    ensures AllowsDependencies(reg, name, v, fixed, dists)
  {
    forall child | child in fixed.Keys + dists.Keys && child in reg.dims && name in reg.dims[child].dependsOn
      ensures v in reg.dims[child].dependsOn[name]
    {
      ParentAllows(reg, full, child, name);
    }
  }

  /**
   * A value that some completion keeps is given up by the look-ahead if and only if a rule that already fires asks
   * something to which an empty distribution, or one on a numeric dimension, gives no weight.
   */
  lemma LookAheadExact(reg: Registry, name: string, v: Value, current: Values, fixed: Values, dists: Distributions,
                       full: Values)
    requires Accepted(reg) && Order(reg).Some? && Names(Order(reg).value) <= reg.dims.Keys
    requires Completes(reg, current[name := v], fixed, dists, full)
    ensures Feasible(reg, name, v, current, fixed, dists) <==> !Blocked(reg, current[name := v], fixed, dists)
  {
    AcceptedIsOrdered(reg);
    var proposed := current[name := v];
    CompletionIsClean(reg, proposed, fixed, dists, full);
    if RuleErrors(reg.rules, proposed, true) != [] { ErrorsStay(reg, proposed, full); }
    CompletionOpensRules(reg, proposed, fixed, dists, full);
    CompletionAllowsDependencies(reg, name, v, fixed, dists, full);
  }

  lemma NothingBlocked(reg: Registry, proposed: Values, fixed: Values, dists: Distributions)
    requires forall n :: n in dists ==> !Undrawn(reg, n, dists)
    ensures !Blocked(reg, proposed, fixed, dists)
  {
  }

  /** So with non-empty distributions on enum and boolean dimensions only, a rejected value has no completion at all. */
  lemma LookAheadIsSound(reg: Registry, name: string, v: Value, current: Values, fixed: Values, dists: Distributions)
    requires Accepted(reg) && Order(reg).Some? && Names(Order(reg).value) <= reg.dims.Keys
    requires forall n :: n in dists ==> Choosable(reg, n) && dists[n] != map[]
    requires !Feasible(reg, name, v, current, fixed, dists)
    ensures !Completable(reg, current[name := v], fixed, dists)
  {
    if Completable(reg, current[name := v], fixed, dists) {
      var full :| Completes(reg, current[name := v], fixed, dists, full);
      LookAheadExact(reg, name, v, current, fixed, dists, full);
      NothingBlocked(reg, current[name := v], fixed, dists);
    }
  }

  /* ---- Inputs on which it does give up too much ---- */

  const SWITCH := Spec(Boolean, [], None, None, Flag(false), map[])

  const COUNT := Spec(Integer, [], Some(0.0), Some(9.0), Whole(0), map[])

  function TwoDims(second: Spec, wanted: Value): Registry {
    Registry(map["a" := SWITCH, "b" := second],
             [Rule("a-needs-b", [Clause("a", {Flag(true)})], [Clause("b", {wanted})], [])])
  }

  ghost predicate Plain(second: Spec, wanted: Value) {
    && second.dependsOn == map[] && second.preset != Null
    && ValidValue(second, second.preset) && ValidValue(second, wanted)
  }

  lemma ChainOfTwo(g: Graph)
    requires g == map["a" := {}, "b" := {"a"}]
    ensures LayersFrom(g, {}) == Some(["a", "b"])
  {
    OneName("a");
    OneName("b");
    assert Ready(g, {}) == {"a"} && Ready(g, {"a"}) == {"b"};
    assert {} + {"a"} == {"a"} && {"a"} + {"b"} == g.Keys == {"a", "b"};
    assert LayersFrom(g, g.Keys) == Some([]);
    assert LayersFrom(g, {"a"}) == Prefixed(["b"], LayersFrom(g, g.Keys));
    assert LayersFrom(g, {}) == Prefixed(["a"], LayersFrom(g, {"a"}));
    assert ["b"] + [] == ["b"] && ["a"] + ["b"] == ["a", "b"];
  }

  lemma TwoDimsGraph(second: Spec, wanted: Value)
    requires Plain(second, wanted)
    ensures DependencyGraph(TwoDims(second, wanted)) == map["a" := {}, "b" := {"a"}]
  {
    var reg := TwoDims(second, wanted);
    var rule := reg.rules[0];
    assert rule.require[0].name == "b";
    assert About(rule, "b") && !About(rule, "a");
    assert rule.when[0].name in Conditions(reg.rules, "b");
    assert Conditions(reg.rules, "a") == {} && Conditions(reg.rules, "b") == {"a"};
    assert GenerationDependencies(reg, "a") == {} && GenerationDependencies(reg, "b") == {"a"};
    assert reg.dims.Keys == {"a", "b"};
  }

  lemma TwoDimsWellFormed(second: Spec, wanted: Value)
    requires Plain(second, wanted)
    ensures WellFormed(TwoDims(second, wanted))
  {
    var reg := TwoDims(second, wanted);
    var rule := reg.rules[0];
    assert ClauseOk(reg, rule.when[0]) && ClauseOk(reg, rule.require[0]);
    assert RuleOk(reg, rule);
    assert SpecOk(reg, SWITCH) && SpecOk(reg, second);
  }

  lemma TwoDimsOrder(second: Spec, wanted: Value)
    requires Plain(second, wanted)
    ensures Accepted(TwoDims(second, wanted)) && Order(TwoDims(second, wanted)) == Some(["a", "b"])
  {
    var reg := TwoDims(second, wanted);
    TwoDimsGraph(second, wanted);
    ChainOfTwo(DependencyGraph(reg));
    TwoDimsWellFormed(second, wanted);
    AcceptedIsOrdered(reg);
  }

  lemma BothSetMeetsRule(rule: Rule, wanted: Value)
    requires rule == Rule("a-needs-b", [Clause("a", {Flag(true)})], [Clause("b", {wanted})], [])
    ensures RuleErrors([rule], map["a" := Flag(true), "b" := wanted], false) == []
  {
    var full: Values := map["a" := Flag(true), "b" := wanted];
    assert rule.require[..0] == [] && [rule][..0] == [];
    assert RequireViolations([], full, false) == [];
    assert RequireViolation(rule.require[0], full, false) == [];
    assert Violations(rule, full, false) == [];
  }

  lemma BothSetIsClean(second: Spec, wanted: Value)
    requires Plain(second, wanted)
    ensures var full: Values := map["a" := Flag(true), "b" := wanted];
            Names(["a", "b"]) <= TwoDims(second, wanted).dims.Keys
            && Checked(TwoDims(second, wanted), ["a", "b"], full, true).0 == []
  {
    var reg := TwoDims(second, wanted);
    var full: Values := map["a" := Flag(true), "b" := wanted];
    var order := ["a", "b"];
    forall i | 0 <= i < |order| ensures PlacedAt(reg, order, i, full) {
      assert order[i] == "a" || order[i] == "b";
    }
    ConsistentWalk(reg, order, full, true);
    assert full.Keys - reg.dims.Keys == {};
    BothSetMeetsRule(reg.rules[0], wanted);
  }

  // Setting "a" can be completed, but is given up.
  ghost predicate GivesUpTooMuch(reg: Registry, dists: Distributions)
    requires Order(reg).Some? && Names(Order(reg).value) <= reg.dims.Keys
  {
    Completable(reg, map["a" := Flag(true)], map[], dists) && !Feasible(reg, "a", Flag(true), map[], map[], dists)
  }

  lemma ShutDistribution(second: Spec, wanted: Value, weights: Weights)
    requires Plain(second, wanted) && !(wanted in weights && weights[wanted] > 0.0)
    requires weights == map[] || second.kind in {Integer, Number}
    ensures Blocked(TwoDims(second, wanted), map["a" := Flag(true)], map[], map["b" := weights])
  {
    var reg := TwoDims(second, wanted);
    var rule := reg.rules[0];
    var proposed: Values := map["a" := Flag(true)];
    assert Fired(rule, proposed + map[]);
    assert RequireShut(reg, rule.require[0], map["b" := weights]);
  }

  lemma CompletesWith(reg: Registry, order: seq<string>, current: Values, fixed: Values, dists: Distributions,
                      full: Values)
    requires Order(reg) == Some(order) && Names(order) <= reg.dims.Keys
    requires Extends(full, current) && Respects(reg, full, fixed, dists) && Checked(reg, order, full, true).0 == []
    ensures Completable(reg, current, fixed, dists)
  {
    assert Completes(reg, current, fixed, dists, full);
  }

  lemma BothSetRespects(second: Spec, wanted: Value, weights: Weights)
    requires second.kind in {Enum, Boolean} ==> WeightOf(weights, wanted) > 0.0
    ensures Respects(TwoDims(second, wanted), map["a" := Flag(true), "b" := wanted], map[], map["b" := weights])
    ensures Extends(map["a" := Flag(true), "b" := wanted], map["a" := Flag(true)])
  {
  }

  lemma BothSetCompletes(second: Spec, wanted: Value, weights: Weights)
    requires Plain(second, wanted) && Order(TwoDims(second, wanted)) == Some(["a", "b"])
    requires second.kind in {Enum, Boolean} ==> WeightOf(weights, wanted) > 0.0
    ensures Names(["a", "b"]) <= TwoDims(second, wanted).dims.Keys
    ensures Completable(TwoDims(second, wanted), map["a" := Flag(true)], map[], map["b" := weights])
  {
    BothSetIsClean(second, wanted);
    BothSetRespects(second, wanted, weights);
    CompletesWith(TwoDims(second, wanted), ["a", "b"], map["a" := Flag(true)], map[], map["b" := weights],
                  map["a" := Flag(true), "b" := wanted]);
  }

  // A value that can be completed and that the exact condition gives up.
  lemma GivenUp(second: Spec, wanted: Value, weights: Weights)
    requires Plain(second, wanted) && Order(TwoDims(second, wanted)) == Some(["a", "b"])
             && Accepted(TwoDims(second, wanted))
    requires !(wanted in weights && weights[wanted] > 0.0)
    requires weights == map[] || second.kind in {Integer, Number}
    ensures Names(["a", "b"]) <= TwoDims(second, wanted).dims.Keys
    ensures GivesUpTooMuch(TwoDims(second, wanted), map["b" := weights])
  {
    var reg := TwoDims(second, wanted);
    var empty: Values := map[];
    BothSetCompletes(second, wanted, weights);
    ShutDistribution(second, wanted, weights);
    assert empty["a" := Flag(true)] == map["a" := Flag(true)];
    var full :| Completes(reg, map["a" := Flag(true)], map[], map["b" := weights], full);
    LookAheadExact(reg, "a", Flag(true), empty, map[], map["b" := weights], full);
  }

  /** An empty distribution is drawn from evenly, but the look-ahead takes it to allow nothing. */
  lemma EmptyDistributionIsClosed()
    ensures var reg := TwoDims(SWITCH, Flag(true));
            Accepted(reg) && Order(reg) == Some(["a", "b"]) && Names(["a", "b"]) <= reg.dims.Keys
            && GivesUpTooMuch(reg, map["b" := map[]])
  {
    TwoDimsOrder(SWITCH, Flag(true));
    GivenUp(SWITCH, Flag(true), map[]);
  }

  /** A distribution on a number is not drawn from at all, but the look-ahead holds it against the rules. */
  lemma NumericDistributionIsHeldAgainst()
    ensures var reg := TwoDims(COUNT, Whole(5));
            Accepted(reg) && Order(reg) == Some(["a", "b"]) && Names(["a", "b"]) <= reg.dims.Keys
            && GivesUpTooMuch(reg, map["b" := map[Whole(3) := 1.0]])
  {
    TwoDimsOrder(COUNT, Whole(5));
    GivenUp(COUNT, Whole(5), map[Whole(3) := 1.0]);
  }
}
