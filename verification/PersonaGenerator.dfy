/** The persona generator: dimensions in order, constrained choice with look-ahead, then the validator. */
module PersonaGenerator {
  import opened Wrappers
  import opened TextSets
  import opened DependencyOrder
  import opened PersonaSchema
  import opened PersonaValidator

  type Weights = map<Value, real>

  type Distributions = map<string, Weights>

  // Which of the two error types is raised, or a draw from an empty integer range.
  datatype Failure = FixedField | Infeasible | EmptyRange

  /* ---- Look-ahead ---- */

  // No fixed or distributed dimension is switched off by the value.
  predicate AllowsDependencies(reg: Registry, name: string, v: Value, fixed: Values, dists: Distributions) {
    forall child :: child in fixed.Keys + dists.Keys && child in reg.dims && name in reg.dims[child].dependsOn ==>
      v in reg.dims[child].dependsOn[name]
  }

  predicate RequireOpen(c: Clause, fixed: Values, dists: Distributions) {
    && (c.name in fixed ==> fixed[c.name] in c.allowed)
    && (c.name in dists ==> exists v :: v in dists[c.name] && v in c.allowed && dists[c.name][v] > 0.0)
  }

  predicate ForbidOpen(c: Clause, fixed: Values, dists: Distributions) {
    && (c.name in fixed ==> fixed[c.name] !in c.allowed)
    && (c.name in dists ==> exists v :: v in dists[c.name] && v !in c.allowed && dists[c.name][v] > 0.0)
  }

  predicate RuleOpen(rule: Rule, fixed: Values, dists: Distributions) {
    && (forall i :: 0 <= i < |rule.require| ==> RequireOpen(rule.require[i], fixed, dists))
    && (forall i :: 0 <= i < |rule.forbid| ==> ForbidOpen(rule.forbid[i], fixed, dists))
  }

  // Every rule that already fires can still be met by the fixed values and the distributions.
  predicate AllowsFuture(reg: Registry, proposed: Values, fixed: Values, dists: Distributions) {
    forall i :: 0 <= i < |reg.rules| && Fired(reg.rules[i], proposed + fixed) ==> RuleOpen(reg.rules[i], fixed, dists)
  }

  predicate Feasible(reg: Registry, name: string, v: Value, current: Values, fixed: Values, dists: Distributions) {
    && RuleErrors(reg.rules, current[name := v], true) == []
    && AllowsDependencies(reg, name, v, fixed, dists)
    && AllowsFuture(reg, current[name := v], fixed, dists)
  }

  /* ---- One choice ---- */

  function Candidates(spec: Spec): seq<Value> {
    match spec.kind
    case Boolean => [Flag(false), Flag(true)]
    case _ => seq(|spec.values|, i requires 0 <= i < |spec.values| => Text(spec.values[i]))
  }

  function WeightsOf(dists: Distributions, name: string): Weights {
    if name in dists then dists[name] else map[]
  }

  // An absent or empty distribution weighs all candidates alike.
  function WeightOf(weights: Weights, v: Value): real {
    if weights == map[] then 1.0 else if v in weights then weights[v] else 0.0
  }

  predicate GoodWeights(weights: Weights, candidates: seq<Value>) {
    forall v :: v in weights ==> v in candidates && weights[v] >= 0.0
  }

  // The values a draw can return.
  predicate Drawable(reg: Registry, name: string, v: Value, candidates: seq<Value>, current: Values,
                     fixed: Values, dists: Distributions) {
    && v in candidates && Feasible(reg, name, v, current, fixed, dists)
    && WeightOf(WeightsOf(dists, name), v) > 0.0
  }

  function Filtered(candidates: seq<Value>, keep: Value -> bool): seq<Value> {
    if candidates == [] then []
    else
      var last := candidates[|candidates| - 1];
      Filtered(candidates[..|candidates| - 1], keep) + if keep(last) then [last] else []
  }

  function TotalWeight(weights: Weights, vs: seq<Value>): real {
    if vs == [] then 0.0 else TotalWeight(weights, vs[..|vs| - 1]) + WeightOf(weights, vs[|vs| - 1])
  }

  lemma {:induction false} FilteredMembers(candidates: seq<Value>, keep: Value -> bool, v: Value)
    ensures v in Filtered(candidates, keep) <==> v in candidates && keep(v)
  {
    if candidates != [] {
      var front, last := candidates[..|candidates| - 1], candidates[|candidates| - 1];
      FilteredMembers(front, keep, v);
      assert candidates == front + [last];
    }
  }

  lemma {:induction false} WeightSomewhere(weights: Weights, vs: seq<Value>)
    requires forall v :: v in weights ==> weights[v] >= 0.0
    ensures TotalWeight(weights, vs) >= 0.0
    ensures TotalWeight(weights, vs) > 0.0 <==> exists v :: v in vs && WeightOf(weights, v) > 0.0
  {
    if vs != [] {
      var front, last := vs[..|vs| - 1], vs[|vs| - 1];
      WeightSomewhere(weights, front);
      assert vs == front + [last];
      assert last in vs;
    }
  }

  // A draw fails exactly when the distribution is malformed or no feasible candidate has weight.
  method Choose(reg: Registry, name: string, candidates: seq<Value>, current: Values,
                fixed: Values, dists: Distributions) returns (r: Option<Value>)
    ensures r.Some? ==> Drawable(reg, name, r.value, candidates, current, fixed, dists)
    ensures r.None? <==> !GoodWeights(WeightsOf(dists, name), candidates)
                         || forall v :: !Drawable(reg, name, v, candidates, current, fixed, dists)
  {
    var weights := WeightsOf(dists, name);
    if !GoodWeights(weights, candidates) { return None; }
    ghost var keep := v => Feasible(reg, name, v, current, fixed, dists);
    var feasible: seq<Value> := [];
    var total := 0.0;
    for i := 0 to |candidates|
      invariant feasible == Filtered(candidates[..i], keep)
      invariant total == TotalWeight(weights, feasible)
    {
      assert candidates[..i + 1][..i] == candidates[..i];
      if Feasible(reg, name, candidates[i], current, fixed, dists) {
        assert (feasible + [candidates[i]])[..|feasible|] == feasible;
        feasible := feasible + [candidates[i]];
        total := total + WeightOf(weights, candidates[i]);
      }
    }
    assert candidates[..|candidates|] == candidates;
    WeightSomewhere(weights, feasible);
    forall v ensures v in feasible && WeightOf(weights, v) > 0.0
                     <==> Drawable(reg, name, v, candidates, current, fixed, dists) {
      FilteredMembers(candidates, keep, v);
    }
    if total <= 0.0 { return None; }
    var picked :| picked in feasible && WeightOf(weights, picked) > 0.0;
    return Some(picked);
  }

  /* ---- The pass over the dimensions ---- */

  // A bound of zero counts as not given.
  function Bound(given: Option<real>, otherwise: real): real {
    if given.None? || given.value == 0.0 then otherwise else given.value
  }

  function Truncated(x: real): int {
    if x >= 0.0 then x.Floor else -((-x).Floor)
  }

  predicate InRange(spec: Spec, n: int) {
    Truncated(Bound(spec.minimum, 0.0)) <= n <= Truncated(Bound(spec.maximum, 100.0))
  }

  /** Integers are drawn between the bounds cut to whole numbers; absent or zero ones count as zero and a hundred. */
  lemma RangeMeans(spec: Spec, n: int)
    ensures InRange(spec, n) <==>
            && (if spec.minimum.None? || spec.minimum.value == 0.0 then n >= 0
                else exists low :: CutTo(spec.minimum.value, low) && n >= low)
            && (if spec.maximum.None? || spec.maximum.value == 0.0 then n <= 100
                else exists high :: CutTo(spec.maximum.value, high) && n <= high)
  {
    if spec.minimum.Some? { CutIsTruncated(spec.minimum.value); }
    if spec.maximum.Some? { CutIsTruncated(spec.maximum.value); }
  }

  // The whole number next to x towards zero.
  predicate CutTo(x: real, n: int) {
    if x >= 0.0 then n as real <= x < n as real + 1.0 else n as real - 1.0 < x <= n as real
  }

  lemma CutIsTruncated(x: real)
    ensures CutTo(x, Truncated(x)) && forall n :: CutTo(x, n) ==> n == Truncated(x)
  {
  }

  function TenThousandths(k: int): real {
    k as real / 10000.0
  }

  // A number between the bounds, in whichever order they are, after rounding to four decimals.
  ghost predicate NearRange(spec: Spec, x: real) {
    var a, b := Bound(spec.minimum, 0.0), Bound(spec.maximum, 1.0);
    && (exists k :: x == TenThousandths(k))
    && (if a <= b then a else b) - 0.00005 <= x <= (if a <= b then b else a) + 0.00005
  }

  // Where a dimension's value may have come from.
  ghost predicate Sourced(spec: Spec, name: string, v: Value, fixed: Values, dists: Distributions, defaults: bool) {
    if name in fixed then v == fixed[name]
    else if defaults then v == spec.preset
    else
      match spec.kind
      case Integer => v.Whole? && InRange(spec, v.n)
      case Number => v.Fraction? && NearRange(spec, v.x)
      case _ => v in Candidates(spec) && WeightOf(WeightsOf(dists, name), v) > 0.0
  }

  // What can be drawn for an enabled dimension.
  ghost predicate CanDraw(reg: Registry, name: string, v: Value, values: Values, fixed: Values, dists: Distributions,
                          defaults: bool)
    requires name in reg.dims
  {
    var spec := reg.dims[name];
    if name in fixed || defaults || spec.kind == Integer || spec.kind == Number then
      Sourced(spec, name, v, fixed, dists, defaults)
    else
      GoodWeights(WeightsOf(dists, name), Candidates(spec))
      && Drawable(reg, name, v, Candidates(spec), values, fixed, dists)
  }

  predicate Fits(reg: Registry, name: string, v: Value, values: Values)
    requires name in reg.dims
  {
    ValidValue(reg.dims[name], v) && RuleErrors(reg.rules, values[name := v], true) == []
  }

  // One dimension done: left out as it is switched off and nobody asked for it, or given a drawn value that fits.
  ghost predicate Places(reg: Registry, name: string, values: Values, fixed: Values, dists: Distributions,
                         defaults: bool, next: Values)
    requires name in reg.dims
  {
    if !Enabled(reg.dims[name], values) then name !in fixed && name !in dists && next == values
    else exists v :: CanDraw(reg, name, v, values, fixed, dists, defaults) && Fits(reg, name, v, values)
                     && next == values[name := v]
  }

  // One dimension failing: it is switched off although asked for, nothing can be drawn, or what is drawn does not fit.
  ghost predicate Fails(reg: Registry, name: string, values: Values, fixed: Values, dists: Distributions,
                        defaults: bool, e: Failure)
    requires name in reg.dims
  {
    if !Enabled(reg.dims[name], values) then
      (name in fixed && e == FixedField) || (name !in fixed && name in dists && e == Infeasible)
    else
      || ((forall v :: !CanDraw(reg, name, v, values, fixed, dists, defaults))
          && e == if reg.dims[name].kind == Integer then EmptyRange else Infeasible)
      || ((exists v :: CanDraw(reg, name, v, values, fixed, dists, defaults) && !Fits(reg, name, v, values))
          && e == if name in fixed then FixedField else Infeasible)
  }

  // The values that the first dimensions can have been given.
  ghost predicate Drawn(reg: Registry, order: seq<string>, values: Values, fixed: Values, dists: Distributions,
                        defaults: bool)
    requires Names(order) <= reg.dims.Keys
  {
    if order == [] then values == map[]
    else
      LastNamed(order);
      exists before :: PlacesLast(reg, order, before, fixed, dists, defaults, values)
                       && Drawn(reg, order[..|order| - 1], before, fixed, dists, defaults)
  }

  ghost predicate PlacesLast(reg: Registry, order: seq<string>, before: Values, fixed: Values, dists: Distributions,
                             defaults: bool, values: Values)
    requires Names(order) <= reg.dims.Keys && order != []
  {
    LastNamed(order);
    Places(reg, order[|order| - 1], before, fixed, dists, defaults, values)
  }

  lemma LastNamed(order: seq<string>)
    requires order != []
    ensures order[|order| - 1] in Names(order) && Names(order[..|order| - 1]) <= Names(order)
  {
  }

  // The pass stops at a dimension, with values that the ones before it can have been given.
  ghost predicate StopsAt(reg: Registry, order: seq<string>, i: nat, values: Values, fixed: Values,
                          dists: Distributions, defaults: bool, e: Failure)
    requires Names(order) <= reg.dims.Keys
  {
    && i < |order| && Names(order[..i]) <= reg.dims.Keys && order[i] in reg.dims
    && Drawn(reg, order[..i], values, fixed, dists, defaults)
    && Fails(reg, order[i], values, fixed, dists, defaults, e)
  }

  // The first dimensions have been given their values, whatever was drawn.
  ghost predicate Generated(reg: Registry, order: seq<string>, values: Values,
                            fixed: Values, dists: Distributions, defaults: bool)
    requires Names(order) <= reg.dims.Keys
  {
    && values.Keys <= Names(order)
    && Consistent(reg, order, values)
    && RuleErrors(reg.rules, values, true) == []
    && (forall name :: name in order && (name in fixed || name in dists) ==> name in values)
    && (forall name :: name in values ==>
          name in reg.dims && Sourced(reg.dims[name], name, values[name], fixed, dists, defaults))
  }

  method Draw(reg: Registry, name: string, values: Values, fixed: Values, dists: Distributions, defaults: bool)
    returns (r: Result<Value, Failure>)
    requires name in reg.dims
    ensures r.Ok? ==> CanDraw(reg, name, r.value, values, fixed, dists, defaults)
    ensures r.Err? ==> forall v :: !CanDraw(reg, name, v, values, fixed, dists, defaults)
    ensures r.Err? ==> r.error == if reg.dims[name].kind == Integer then EmptyRange else Infeasible
  {
    var spec := reg.dims[name];
    if name in fixed { return Ok(fixed[name]); }
    if defaults { return Ok(spec.preset); }
    if spec.kind in {Enum, Boolean} {
      var chosen := Choose(reg, name, Candidates(spec), values, fixed, dists);
      return if chosen.Some? then Ok(chosen.value) else Err(Infeasible);
    }
    if spec.kind == Integer {
      var low := Truncated(Bound(spec.minimum, 0.0));
      var high := Truncated(Bound(spec.maximum, 100.0));
      if low > high { return Err(EmptyRange); }
      var n: int :| low <= n <= high;
      return Ok(Whole(n));
    }
    var x := Uniform(Bound(spec.minimum, 0.0), Bound(spec.maximum, 1.0));
    return Ok(Fraction(x));
  }

  // Any number between the two, rounded to four decimals.
  method Uniform(a: real, b: real) returns (x: real)
    ensures exists k :: x == TenThousandths(k)
    ensures (if a <= b then a else b) - 0.00005 <= x <= (if a <= b then b else a) + 0.00005
  {
    var low, high := if a <= b then a else b, if a <= b then b else a;
    var y: real :| true;
    y := if y < low then low else if y > high then high else y;
    var k := (y * 10000.0 + 0.5).Floor;
    x := TenThousandths(k);
  }

  lemma DrawnIsSourced(reg: Registry, name: string, v: Value, values: Values, fixed: Values, dists: Distributions,
                       defaults: bool)
    requires name in reg.dims && CanDraw(reg, name, v, values, fixed, dists, defaults)
    ensures Sourced(reg.dims[name], name, v, fixed, dists, defaults)
  {
  }

  lemma GeneratedSkips(reg: Registry, order: seq<string>, name: string, values: Values,
                       fixed: Values, dists: Distributions, defaults: bool)
    requires Names(order + [name]) <= reg.dims.Keys && Distinct(order + [name]) && name in reg.dims
    requires Names(order) <= reg.dims.Keys && Generated(reg, order, values, fixed, dists, defaults)
    requires !Enabled(reg.dims[name], values) && name !in fixed && name !in dists
    ensures Generated(reg, order + [name], values, fixed, dists, defaults)
  {
    NotBefore(order, name);
    UptoAll(values, order);
    ConsistentMore(reg, order, name, values);
    PrefixNames(order, name);
  }

  lemma NotBefore(order: seq<string>, name: string)
    requires Distinct(order + [name])
    ensures name !in Names(order)
  {
    forall i | 0 <= i < |order| ensures order[i] != name {
      assert (order + [name])[i] == order[i] && (order + [name])[|order|] == name;
    }
  }

  lemma UptoAll(values: Values, order: seq<string>)
    requires values.Keys <= Names(order)
    ensures Upto(values, Names(order)) == values
  {
  }

  // Appending a dimension that has a value exactly if it is enabled by the ones before.
  lemma ConsistentMore(reg: Registry, order: seq<string>, name: string, values: Values)
    requires Names(order + [name]) <= reg.dims.Keys && Names(order) <= reg.dims.Keys && name in reg.dims
    requires Consistent(reg, order, values)
    requires name in values <==> Enabled(reg.dims[name], Upto(values, Names(order)))
    requires name in values ==> ValidValue(reg.dims[name], values[name])
    ensures Consistent(reg, order + [name], values)
  {
    var more := order + [name];
    forall i | 0 <= i < |more| ensures PlacedAt(reg, more, i, values) {
      assert more[..i] == order[..i];
      if i < |order| { assert PlacedAt(reg, order, i, values); } else { assert order[..i] == order; }
    }
  }

  lemma NewValueKeepsConsistent(reg: Registry, order: seq<string>, name: string, v: Value, values: Values)
    requires Names(order) <= reg.dims.Keys && name !in Names(order)
    requires Consistent(reg, order, values)
    ensures Consistent(reg, order, values[name := v])
  {
    var next := values[name := v];
    forall i | 0 <= i < |order| ensures PlacedAt(reg, order, i, next) {
      assert PlacedAt(reg, order, i, values);
      assert order[i] in Names(order);
      assert Names(order[..i]) <= Names(order);
      assert Upto(next, Names(order[..i])) == Upto(values, Names(order[..i]));
    }
  }

  lemma GeneratedGrows(reg: Registry, order: seq<string>, name: string, v: Value, values: Values,
                       fixed: Values, dists: Distributions, defaults: bool)
    requires Names(order + [name]) <= reg.dims.Keys && Distinct(order + [name]) && name in reg.dims
    requires Names(order) <= reg.dims.Keys && Generated(reg, order, values, fixed, dists, defaults)
    requires Enabled(reg.dims[name], values) && ValidValue(reg.dims[name], v)
    requires Sourced(reg.dims[name], name, v, fixed, dists, defaults)
    requires RuleErrors(reg.rules, values[name := v], true) == []
    ensures Generated(reg, order + [name], values[name := v], fixed, dists, defaults)
  {
    NotBefore(order, name);
    UptoAll(values, order);
    NewValueKeepsConsistent(reg, order, name, v, values);
    assert Upto(values[name := v], Names(order)) == values;
    ConsistentMore(reg, order, name, values[name := v]);
    PrefixNames(order, name);
  }

  // One dimension: skipped when it is switched off, otherwise given a checked value.
  method Place(reg: Registry, name: string, values: Values, fixed: Values, dists: Distributions, defaults: bool)
    returns (r: Result<Values, Failure>)
    requires name in reg.dims
    ensures r.Ok? ==> Places(reg, name, values, fixed, dists, defaults, r.value)
    ensures r.Err? ==> Fails(reg, name, values, fixed, dists, defaults, r.error)
  {
    var spec := reg.dims[name];
    if !Enabled(spec, values) {
      if name in fixed { return Err(FixedField); }
      if name in dists { return Err(Infeasible); }
      return Ok(values);
    }
    var drawn := Draw(reg, name, values, fixed, dists, defaults);
    if drawn.Err? { return Err(drawn.error); }
    var failure := if name in fixed then FixedField else Infeasible;
    if !ValidValue(spec, drawn.value) { return Err(failure); }
    var errors := ConstraintErrors(reg, values[name := drawn.value], true);
    if errors != [] { return Err(failure); }
    return Ok(values[name := drawn.value]);
  }

  lemma PlacedIsGenerated(reg: Registry, order: seq<string>, name: string, values: Values, fixed: Values,
                          dists: Distributions, defaults: bool, next: Values)
    requires Names(order + [name]) <= reg.dims.Keys && Distinct(order + [name]) && name in reg.dims
    requires Names(order) <= reg.dims.Keys && Generated(reg, order, values, fixed, dists, defaults)
    requires Places(reg, name, values, fixed, dists, defaults, next)
    ensures Generated(reg, order + [name], next, fixed, dists, defaults)
  {
    if !Enabled(reg.dims[name], values) {
      GeneratedSkips(reg, order, name, values, fixed, dists, defaults);
    } else {
      var v :| CanDraw(reg, name, v, values, fixed, dists, defaults) && Fits(reg, name, v, values)
               && next == values[name := v];
      DrawnIsSourced(reg, name, v, values, fixed, dists, defaults);
      GeneratedGrows(reg, order, name, v, values, fixed, dists, defaults);
    }
  }

  lemma GeneratedStart(reg: Registry, fixed: Values, dists: Distributions, defaults: bool)
    ensures Names([]) <= reg.dims.Keys && Generated(reg, [], map[], fixed, dists, defaults)
  {
    PartialErrors(reg.rules, map[]);
    forall i | 0 <= i < |reg.rules| ensures !Contradicts(reg.rules[i], map[]) {}
  }

  lemma DrawnMore(reg: Registry, order: seq<string>, name: string, values: Values, fixed: Values, dists: Distributions,
                  defaults: bool, next: Values)
    requires Names(order + [name]) <= reg.dims.Keys && Names(order) <= reg.dims.Keys && name in reg.dims
    requires Drawn(reg, order, values, fixed, dists, defaults)
    requires Places(reg, name, values, fixed, dists, defaults, next)
    ensures Drawn(reg, order + [name], next, fixed, dists, defaults)
  {
    assert (order + [name])[..|order|] == order;
    assert PlacesLast(reg, order + [name], values, fixed, dists, defaults, next);
  }

  method Assign(reg: Registry, order: seq<string>, fixed: Values, dists: Distributions, defaults: bool)
    returns (r: Result<Values, Failure>)
    requires Names(order) <= reg.dims.Keys && Distinct(order)
    ensures r.Ok? ==> Generated(reg, order, r.value, fixed, dists, defaults)
                      && Drawn(reg, order, r.value, fixed, dists, defaults)
    ensures r.Err? ==> exists i: nat, values :: StopsAt(reg, order, i, values, fixed, dists, defaults, r.error)
  {
    GeneratedStart(reg, fixed, dists, defaults);
    var values: Values := map[];
    for i := 0 to |order|
      invariant Names(order[..i]) <= reg.dims.Keys
      invariant Generated(reg, order[..i], values, fixed, dists, defaults)
      invariant Drawn(reg, order[..i], values, fixed, dists, defaults)
    {
      assert order[..i + 1] == order[..i] + [order[i]];
      assert order[i] in Names(order) && Names(order[..i + 1]) <= Names(order);
      var placed := Place(reg, order[i], values, fixed, dists, defaults);
      if placed.Err? {
        assert StopsAt(reg, order, i, values, fixed, dists, defaults, placed.error);
        return Err(placed.error);
      }
      PlacedIsGenerated(reg, order[..i], order[i], values, fixed, dists, defaults, placed.value);
      DrawnMore(reg, order[..i], order[i], values, fixed, dists, defaults, placed.value);
      values := placed.value;
    }
    assert order[..|order|] == order;
    return Ok(values);
  }

  predicate FixedOk(reg: Registry, fixed: Values)
    requires fixed.Keys <= reg.dims.Keys
  {
    && (forall name :: name in fixed ==>
          && ValidValue(reg.dims[name], fixed[name])
          && forall parent :: parent in reg.dims[name].dependsOn && parent in fixed ==>
               fixed[parent] in reg.dims[name].dependsOn[parent])
    && RuleErrors(reg.rules, fixed, true) == []
  }

  // What a caller may not ask for.
  predicate Refused(reg: Registry, fixed: Values, dists: Distributions) {
    || !(fixed.Keys + dists.Keys <= reg.dims.Keys) || !(fixed.Keys !! dists.Keys)
    || !FixedOk(reg, fixed)
  }

  // Why generation can fail: a refused request, a dimension where the pass stops, or the final check.
  ghost predicate GenerationFails(reg: Registry, order: seq<string>, fixed: Values, dists: Distributions,
                                  defaults: bool, e: Failure)
    requires Names(order) <= reg.dims.Keys
  {
    || Refused(reg, fixed, dists)
    || (exists i: nat, values :: StopsAt(reg, order, i, values, fixed, dists, defaults, e))
    || (e == Infeasible && exists values ::
          && Generated(reg, order, values, fixed, dists, defaults) && Drawn(reg, order, values, fixed, dists, defaults)
          && Checked(reg, order, values, true).0 != [])
  }

  /**
   * Whatever is drawn, a returned persona follows the fixed values and the distributions, and passes the validator; and
   * generation fails only for a request that is refused, at a dimension, or in the final check.
   */
  method Generate(reg: Registry, fixed: Values, dists: Distributions, defaults: bool)
    returns (r: Result<Values, Failure>)
    requires Accepted(reg)
    ensures Order(reg).Some? && Names(Order(reg).value) <= reg.dims.Keys
    ensures r.Ok? ==> Generated(reg, Order(reg).value, r.value, fixed, dists, defaults)
                      && Drawn(reg, Order(reg).value, r.value, fixed, dists, defaults)
                      && Checked(reg, Order(reg).value, r.value, true).0 == []
    ensures Refused(reg, fixed, dists) ==> r.Err?
    ensures r.Err? ==> GenerationFails(reg, Order(reg).value, fixed, dists, defaults, r.error)
  {
    GraphClosed(reg);
    AcceptedIsOrdered(reg);
    if !(fixed.Keys <= reg.dims.Keys) { return Err(FixedField); }
    if !(dists.Keys <= reg.dims.Keys) { return Err(Infeasible); }
    if !(fixed.Keys !! dists.Keys) { return Err(Infeasible); }
    if !FixedOk(reg, fixed) { return Err(FixedField); }
    var ordered := Ordered(DependencyGraph(reg));
    r := Assign(reg, ordered.value, fixed, dists, defaults);
    if r.Ok? {
      var findings, _ := ValidateDimensions(reg, r.value, true);
      if findings != [] { return Err(Infeasible); }
    }
  }
}
