/** Persona dimensions, conditional rules, and the registry's checks on them. */
module PersonaSchema {
  import opened Wrappers
  import opened TextSets
  import opened DependencyOrder

  datatype Value = Null | Flag(b: bool) | Whole(n: int) | Fraction(x: real) | Text(s: string)

  datatype Kind = Enum | Boolean | Integer | Number

  // The parent values under which a dimension exists at all.
  datatype Spec = Spec(
    kind: Kind, values: seq<string>, minimum: Option<real>, maximum: Option<real>,
    preset: Value, dependsOn: map<string, set<Value>>)

  datatype Clause = Clause(name: string, allowed: set<Value>)

  datatype Rule = Rule(id: string, when: seq<Clause>, require: seq<Clause>, forbid: seq<Clause>)

  datatype Registry = Registry(dims: map<string, Spec>, rules: seq<Rule>)

  type Values = map<string, Value>

  /* ---- Values ---- */

  function Get(values: Values, name: string): Value {
    if name in values then values[name] else Null
  }

  function AsReal(v: Value): real
    requires v.Whole? || v.Fraction?
  {
    if v.Whole? then v.n as real else v.x
  }

  predicate WithinBounds(spec: Spec, v: Value)
    requires v.Whole? || v.Fraction?
  {
    && (spec.minimum.Some? ==> AsReal(v) >= spec.minimum.value)
    && (spec.maximum.Some? ==> AsReal(v) <= spec.maximum.value)
  }

  predicate ValidValue(spec: Spec, v: Value) {
    match spec.kind
    case Enum => v.Text? && v.s in spec.values
    case Boolean => v.Flag?
    case Integer => v.Whole? && WithinBounds(spec, v)
    case Number => (v.Whole? || v.Fraction?) && WithinBounds(spec, v)
  }

  predicate Enabled(spec: Spec, values: Values) {
    forall parent :: parent in spec.dependsOn ==> Get(values, parent) in spec.dependsOn[parent]
  }

  /* ---- Rules ---- */

  predicate Mentions(clauses: seq<Clause>, name: string) {
    exists i :: 0 <= i < |clauses| && clauses[i].name == name
  }

  predicate Met(c: Clause, values: Values) {
    c.name in values && values[c.name] in c.allowed
  }

  predicate Fired(rule: Rule, values: Values) {
    forall i :: 0 <= i < |rule.when| ==> Met(rule.when[i], values)
  }

  datatype Violation = Required(name: string) | NotAllowed(name: string) | Forbidden(name: string)

  function RequireViolation(c: Clause, values: Values, partial: bool): seq<Violation> {
    if c.name !in values then (if partial then [] else [Required(c.name)])
    else if values[c.name] !in c.allowed then [NotAllowed(c.name)]
    else []
  }

  function ForbidViolation(c: Clause, values: Values): seq<Violation> {
    if Met(c, values) then [Forbidden(c.name)] else []
  }

  function RequireViolations(clauses: seq<Clause>, values: Values, partial: bool): seq<Violation> {
    if clauses == [] then []
    else
      RequireViolations(clauses[..|clauses| - 1], values, partial)
      + RequireViolation(clauses[|clauses| - 1], values, partial)
  }

  function ForbidViolations(clauses: seq<Clause>, values: Values): seq<Violation> {
    if clauses == [] then []
    else ForbidViolations(clauses[..|clauses| - 1], values) + ForbidViolation(clauses[|clauses| - 1], values)
  }

  function Violations(rule: Rule, values: Values, partial: bool): seq<Violation> {
    if !Fired(rule, values) then []
    else RequireViolations(rule.require, values, partial) + ForbidViolations(rule.forbid, values)
  }

  datatype RuleError = RuleError(rule: string, violations: seq<Violation>)

  function RuleErrors(rules: seq<Rule>, values: Values, partial: bool): seq<RuleError> {
    if rules == [] then []
    else
      var last := rules[|rules| - 1];
      var found := Violations(last, values, partial);
      RuleErrors(rules[..|rules| - 1], values, partial) + (if found == [] then [] else [RuleError(last.id, found)])
  }

  method RuleViolations(rule: Rule, values: Values, partial: bool) returns (found: seq<Violation>)
    ensures found == Violations(rule, values, partial)
  {
    found := [];
    if !Fired(rule, values) { return; }
    for i := 0 to |rule.require|
      invariant found == RequireViolations(rule.require[..i], values, partial)
    {
      assert rule.require[..i + 1][..i] == rule.require[..i];
      found := found + RequireViolation(rule.require[i], values, partial);
    }
    assert rule.require[..|rule.require|] == rule.require;
    for i := 0 to |rule.forbid|
      invariant found == RequireViolations(rule.require, values, partial) + ForbidViolations(rule.forbid[..i], values)
    {
      assert rule.forbid[..i + 1][..i] == rule.forbid[..i];
      found := found + ForbidViolation(rule.forbid[i], values);
    }
    assert rule.forbid[..|rule.forbid|] == rule.forbid;
  }

  method ConstraintErrors(reg: Registry, values: Values, partial: bool) returns (errors: seq<RuleError>)
    ensures errors == RuleErrors(reg.rules, values, partial)
  {
    errors := [];
    for i := 0 to |reg.rules|
      invariant errors == RuleErrors(reg.rules[..i], values, partial)
    {
      assert reg.rules[..i + 1][..i] == reg.rules[..i];
      var found := RuleViolations(reg.rules[i], values, partial);
      if found != [] { errors := errors + [RuleError(reg.rules[i].id, found)]; }
    }
    assert reg.rules[..|reg.rules|] == reg.rules;
  }

  // What a partial assignment can already contradict.
  predicate Contradicts(rule: Rule, values: Values) {
    && Fired(rule, values)
    && (|| (exists i :: 0 <= i < |rule.require| && rule.require[i].name in values && !Met(rule.require[i], values))
        || (exists i :: 0 <= i < |rule.forbid| && Met(rule.forbid[i], values)))
  }

  lemma {:induction false} RequirePartial(clauses: seq<Clause>, values: Values)
    ensures RequireViolations(clauses, values, true) != [] <==>
            exists i :: 0 <= i < |clauses| && clauses[i].name in values && !Met(clauses[i], values)
  {
    if clauses != [] {
      var front := clauses[..|clauses| - 1];
      RequirePartial(front, values);
      forall i | 0 <= i < |front| ensures front[i] == clauses[i] {}
    }
  }

  lemma {:induction false} ForbidAny(clauses: seq<Clause>, values: Values)
    ensures ForbidViolations(clauses, values) != [] <==> exists i :: 0 <= i < |clauses| && Met(clauses[i], values)
  {
    if clauses != [] {
      var front := clauses[..|clauses| - 1];
      ForbidAny(front, values);
      forall i | 0 <= i < |front| ensures front[i] == clauses[i] {}
    }
  }

  lemma PartialViolations(rule: Rule, values: Values)
    ensures Violations(rule, values, true) != [] <==> Contradicts(rule, values)
  {
    RequirePartial(rule.require, values);
    ForbidAny(rule.forbid, values);
  }

  lemma {:induction false} PartialErrors(rules: seq<Rule>, values: Values)
    ensures RuleErrors(rules, values, true) != [] <==> exists i :: 0 <= i < |rules| && Contradicts(rules[i], values)
  {
    if rules != [] {
      var front := rules[..|rules| - 1];
      PartialErrors(front, values);
      PartialViolations(rules[|rules| - 1], values);
      forall i | 0 <= i < |front| ensures front[i] == rules[i] {}
    }
  }

  ghost predicate Extends(more: Values, values: Values) {
    forall name :: name in values ==> name in more && more[name] == values[name]
  }

  lemma MetStays(c: Clause, values: Values, more: Values)
    requires Extends(more, values) && c.name in values
    ensures c.name in more && (Met(c, more) <==> Met(c, values))
  {
  }

  lemma FiredStays(rule: Rule, values: Values, more: Values)
    requires Extends(more, values) && Fired(rule, values)
    ensures Fired(rule, more)
  {
    forall i | 0 <= i < |rule.when| ensures Met(rule.when[i], more) {
      MetStays(rule.when[i], values, more);
    }
  }

  lemma ContradictsStays(rule: Rule, values: Values, more: Values)
    requires Extends(more, values) && Contradicts(rule, values)
    ensures Contradicts(rule, more)
  {
    FiredStays(rule, values, more);
    if i :| 0 <= i < |rule.require| && rule.require[i].name in values && !Met(rule.require[i], values) {
      MetStays(rule.require[i], values, more);
    } else {
      var i :| 0 <= i < |rule.forbid| && Met(rule.forbid[i], values);
      MetStays(rule.forbid[i], values, more);
    }
  }

  lemma {:induction false} PartialIsFull(clauses: seq<Clause>, values: Values)
    requires RequireViolations(clauses, values, true) != []
    ensures RequireViolations(clauses, values, false) != []
  {
    if RequireViolations(clauses[..|clauses| - 1], values, true) != [] {
      PartialIsFull(clauses[..|clauses| - 1], values);
    }
  }

  lemma {:induction false} PartialErrorsAreFull(rules: seq<Rule>, values: Values)
    requires RuleErrors(rules, values, true) != []
    ensures RuleErrors(rules, values, false) != []
  {
    var last := rules[|rules| - 1];
    if RuleErrors(rules[..|rules| - 1], values, true) != [] {
      PartialErrorsAreFull(rules[..|rules| - 1], values);
    } else if RequireViolations(last.require, values, true) != [] {
      PartialIsFull(last.require, values);
    }
  }

  /** An error found on part of an assignment stays an error of every extension, partial or complete. */
  lemma ErrorsStay(reg: Registry, values: Values, more: Values)
    requires Extends(more, values) && RuleErrors(reg.rules, values, true) != []
    ensures RuleErrors(reg.rules, more, true) != [] && RuleErrors(reg.rules, more, false) != []
  {
    PartialErrors(reg.rules, values);
    var i :| 0 <= i < |reg.rules| && Contradicts(reg.rules[i], values);
    ContradictsStays(reg.rules[i], values, more);
    PartialErrors(reg.rules, more);
    PartialErrorsAreFull(reg.rules, more);
  }

  // What is left when nothing is contradicted: fired rules that require something not there.
  ghost predicate OnlyMissing(v: seq<Violation>, values: Values) {
    forall i :: 0 <= i < |v| ==> v[i].Required? && v[i].name !in values
  }

  lemma {:induction false} UncontradictedRequires(clauses: seq<Clause>, values: Values)
    requires RequireViolations(clauses, values, true) == []
    ensures OnlyMissing(RequireViolations(clauses, values, false), values)
  {
    if clauses != [] { UncontradictedRequires(clauses[..|clauses| - 1], values); }
  }

  lemma UncontradictedRule(rule: Rule, values: Values)
    requires Violations(rule, values, true) == []
    ensures OnlyMissing(Violations(rule, values, false), values)
  {
    if Fired(rule, values) { UncontradictedRequires(rule.require, values); }
  }

  ghost predicate AllMissing(errors: seq<RuleError>, values: Values) {
    forall i :: 0 <= i < |errors| ==> OnlyMissing(errors[i].violations, values)
  }

  /** An assignment that contradicts no rule can only fail a rule that requires a dimension it does not have. */
  lemma {:induction false} UncontradictedErrors(rules: seq<Rule>, values: Values)
    requires RuleErrors(rules, values, true) == []
    ensures AllMissing(RuleErrors(rules, values, false), values)
  {
    if rules != [] {
      var front, last := rules[..|rules| - 1], rules[|rules| - 1];
      assert RuleErrors(front, values, true) == [] && Violations(last, values, true) == [];
      UncontradictedErrors(front, values);
      UncontradictedRule(last, values);
    }
  }

  /* ---- The schema check ---- */

  predicate About(rule: Rule, name: string) {
    Mentions(rule.require, name) || Mentions(rule.forbid, name)
  }

  // What the rules about a dimension are conditional on.
  function Conditions(rules: seq<Rule>, name: string): set<string> {
    set i, j | 0 <= i < |rules| && 0 <= j < |rules[i].when| && About(rules[i], name) :: rules[i].when[j].name
  }

  // What a dimension waits for: its parents and those conditions.
  function GenerationDependencies(reg: Registry, name: string): set<string>
    requires name in reg.dims
  {
    (reg.dims[name].dependsOn.Keys + Conditions(reg.rules, name)) - {name}
  }

  function DependencyGraph(reg: Registry): Graph {
    map name | name in reg.dims :: GenerationDependencies(reg, name)
  }

  predicate ClauseOk(reg: Registry, c: Clause) {
    c.name in reg.dims && forall v :: v in c.allowed ==> ValidValue(reg.dims[c.name], v)
  }

  predicate RuleOk(reg: Registry, rule: Rule) {
    && (forall i :: 0 <= i < |rule.when| ==> ClauseOk(reg, rule.when[i]))
    && (forall i :: 0 <= i < |rule.require| ==> ClauseOk(reg, rule.require[i]))
    && (forall i :: 0 <= i < |rule.forbid| ==> ClauseOk(reg, rule.forbid[i]))
  }

  predicate SpecOk(reg: Registry, spec: Spec) {
    && spec.preset != Null && ValidValue(spec, spec.preset)
    && (forall parent :: parent in spec.dependsOn ==> ClauseOk(reg, Clause(parent, spec.dependsOn[parent])))
  }

  predicate WellFormed(reg: Registry) {
    && (forall name :: name in reg.dims ==> SpecOk(reg, reg.dims[name]))
    && (forall i :: 0 <= i < |reg.rules| ==> RuleOk(reg, reg.rules[i]))
    && (forall i, j :: 0 <= i < j < |reg.rules| ==> reg.rules[i].id != reg.rules[j].id)
  }

  lemma ConditionsKnown(reg: Registry, name: string)
    requires WellFormed(reg)
    ensures Conditions(reg.rules, name) <= reg.dims.Keys
  {
    forall d | d in Conditions(reg.rules, name) ensures d in reg.dims {
      var i, j :| 0 <= i < |reg.rules| && 0 <= j < |reg.rules[i].when| && reg.rules[i].when[j].name == d;
      assert RuleOk(reg, reg.rules[i]) && ClauseOk(reg, reg.rules[i].when[j]);
    }
  }

  lemma GraphClosed(reg: Registry)
    requires WellFormed(reg)
    ensures Closed(DependencyGraph(reg))
  {
    forall name | name in reg.dims ensures GenerationDependencies(reg, name) <= reg.dims.Keys {
      ConditionsKnown(reg, name);
      forall d | d in reg.dims[name].dependsOn ensures d in reg.dims {
        assert ClauseOk(reg, Clause(d, reg.dims[name].dependsOn[d]));
      }
    }
  }

  ghost predicate Accepted(reg: Registry) {
    WellFormed(reg) && Acyclic(DependencyGraph(reg))
  }

  /** The schema check passes exactly on well-formed schemas whose generation dependencies have no cycle. */
  method ValidateGraph(reg: Registry) returns (ok: bool)
    ensures ok <==> Accepted(reg)
  {
    if !WellFormed(reg) { return false; }
    GraphClosed(reg);
    ok := CheckAcyclic(DependencyGraph(reg));
  }

  function Order(reg: Registry): Option<seq<string>> {
    LayersFrom(DependencyGraph(reg), {})
  }

  /** The check and the order agree: an accepted schema is ordered with each dimension once, after what it waits for. */
  lemma AcceptedIsOrdered(reg: Registry)
    requires WellFormed(reg)
    ensures Accepted(reg) <==> Order(reg).Some?
    ensures Order(reg).Some? ==>
              Topological(DependencyGraph(reg), Order(reg).value) && Names(Order(reg).value) == reg.dims.Keys
  {
    GraphClosed(reg);
    LayersDecide(DependencyGraph(reg));
  }
}
