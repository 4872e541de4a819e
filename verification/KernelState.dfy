/** Branch projections, state deltas, and the branch objects and store that hold them. */
module KernelState {
  import opened Wrappers

  datatype Value = Null | Flag(b: bool) | Number(n: int) | Text(s: string) | Items(items: seq<Value>)

  type Fields = map<string, Value>

  // Projection keys: an entity, or the one record of a projection that has no entities.
  datatype Key = Singleton | Entity(id: nat)

  type Bucket = map<Key, Fields>

  type Projections = map<string, Bucket>

  // The digest of canonical JSON is taken to be injective.
  datatype Hash = Hash(of: Projections)

  datatype Operation = Set | Merge | Delete | Increment

  datatype Delta = Delta(projection: string, operation: Operation, entity: Option<nat>, values: Fields)

  datatype Kind = Canonical | Trial

  datatype Branch = Branch(
    world: nat, id: nat, kind: Kind, projections: Projections, base: Option<Hash>, version: nat)

  function KeyOf(entity: Option<nat>): Key {
    match entity
    case None => Singleton
    case Some(id) => Entity(id)
  }

  // Addition as the host language defines it: numbers (a flag counts as 0 or 1), texts and lists.
  function Plus(a: Value, b: Value): Option<Value> {
    match (a, b)
    case (Text(s), Text(t)) => Some(Text(s + t))
    case (Items(s), Items(t)) => Some(Items(s + t))
    case _ =>
      match (AsNumber(a), AsNumber(b))
      case (Some(m), Some(n)) => Some(Number(m + n))
      case _ => None
  }

  function AsNumber(v: Value): Option<int> {
    match v
    case Number(n) => Some(n)
    case Flag(b) => Some(if b then 1 else 0)
    case _ => None
  }

  function Current(fields: Fields, name: string): Value {
    if name in fields then fields[name] else Number(0)
  }

  predicate CanAdd(fields: Fields, amounts: Fields) {
    forall name :: name in amounts ==> Plus(Current(fields, name), amounts[name]).Some?
  }

  function Added(fields: Fields, amounts: Fields): Fields
    requires CanAdd(fields, amounts)
  {
    fields + map name | name in amounts :: Plus(Current(fields, name), amounts[name]).value
  }

  function BucketOf(p: Projections, name: string): Bucket {
    if name in p then p[name] else map[]
  }

  function RecordOf(bucket: Bucket, key: Key): Fields {
    if key in bucket then bucket[key] else map[]
  }

  // The effect of one delta; none when an increment meets a value it cannot be added to.
  // Every operation, even a delete, leaves the projection's bucket behind.
  function ApplyDelta(p: Projections, d: Delta): Option<Projections> {
    var bucket := BucketOf(p, d.projection);
    var key := KeyOf(d.entity);
    match d.operation
    case Delete => Some(p[d.projection := bucket - {key}])
    case Set => Some(p[d.projection := bucket[key := d.values]])
    case Merge => Some(p[d.projection := bucket[key := RecordOf(bucket, key) + d.values]])
    case Increment =>
      if CanAdd(RecordOf(bucket, key), d.values)
      then Some(p[d.projection := bucket[key := Added(RecordOf(bucket, key), d.values)]])
      else None
  }

  function ApplyAll(p: Projections, deltas: seq<Delta>): Option<Projections> {
    if deltas == [] then Some(p)
    else
      match ApplyAll(p, deltas[..|deltas| - 1])
      case None => None
      case Some(q) => ApplyDelta(q, deltas[|deltas| - 1])
  }

  lemma {:induction false} ApplyAllConcat(p: Projections, a: seq<Delta>, b: seq<Delta>)
    ensures ApplyAll(p, a + b) == match ApplyAll(p, a) case None => None case Some(q) => ApplyAll(q, b)
  {
    if b == [] {
      assert a + b == a;
    } else {
      assert (a + b)[..|a + b| - 1] == a + b[..|b| - 1];
      ApplyAllConcat(p, a, b[..|b| - 1]);
    }
  }

  // A field of the addressed record, if there is such a record and field.
  function FieldAt(p: Projections, name: string, key: Key, field: string): Option<Value> {
    if field in RecordOf(BucketOf(p, name), key) then Some(RecordOf(BucketOf(p, name), key)[field]) else None
  }

  // What the addressed field holds afterwards.
  function FieldAfter(d: Delta, before: Option<Value>, field: string): Option<Value> {
    match d.operation
    case Delete => None
    case Set => if field in d.values then Some(d.values[field]) else None
    case Merge => if field in d.values then Some(d.values[field]) else before
    case Increment =>
      if field in d.values then Plus(if before.Some? then before.value else Number(0), d.values[field]) else before
  }

  /**
   * A delta in terms of single fields: the addressed record changes field by field, every other record and projection
   * stays, and the projection exists afterwards with the record in it unless the record was deleted.
   */
  lemma DeltaEffect(p: Projections, d: Delta, name: string, key: Key, field: string)
    requires ApplyDelta(p, d).Some?
    ensures var q := ApplyDelta(p, d).value;
            && d.projection in q
            && (KeyOf(d.entity) in q[d.projection] <==> d.operation != Delete)
            && q.Keys == p.Keys + {d.projection}
            && FieldAt(q, name, key, field) ==
               (if name == d.projection && key == KeyOf(d.entity)
                then FieldAfter(d, FieldAt(p, name, key, field), field)
                else FieldAt(p, name, key, field))
            && (name != d.projection || key != KeyOf(d.entity) ==>
                  (key in BucketOf(q, name) <==> key in BucketOf(p, name)))
  {
  }

  /** A delta fails exactly when it increments some field by a value that cannot be added to it. */
  lemma DeltaFails(p: Projections, d: Delta)
    ensures ApplyDelta(p, d).None? <==>
            d.operation == Increment &&
            exists field :: field in d.values &&
              Plus(if FieldAt(p, d.projection, KeyOf(d.entity), field).Some?
                   then FieldAt(p, d.projection, KeyOf(d.entity), field).value else Number(0), d.values[field]).None?
  {
    var record := RecordOf(BucketOf(p, d.projection), KeyOf(d.entity));
    forall field ensures Current(record, field) ==
                         if FieldAt(p, d.projection, KeyOf(d.entity), field).Some?
                         then FieldAt(p, d.projection, KeyOf(d.entity), field).value else Number(0) {}
  }

  lemma AddedNothing(fields: Fields)
    ensures Added(fields, map[]) == fields
  {
    assert Added(fields, map[]).Keys == fields.Keys;
  }

  lemma AddedOneMore(start: Fields, amounts: Fields, rest: set<string>, field: string)
    requires field in rest && field in amounts && CanAdd(start, amounts - rest)
    ensures Current(Added(start, amounts - rest), field) == Current(start, field)
    ensures var sum := Plus(Current(start, field), amounts[field]);
            sum.Some? ==>
              && CanAdd(start, amounts - (rest - {field}))
              && Added(start, amounts - (rest - {field})) == Added(start, amounts - rest)[field := sum.value]
  {
  }

  lemma Overwrite<K, V>(m: map<K, V>, k: K, first: V, second: V)
    ensures m[k := first][k := second] == m[k := second]
  {
  }

  function ForTrial(b: Branch, id: nat): Branch {
    Branch(b.world, id, Trial, b.projections, Some(Hash(b.projections)), 0)
  }

  /** One live branch. */
  class BranchState {
    const world: nat
    const id: nat
    const kind: Kind
    var projections: Projections
    var base: Option<Hash>
    var version: nat

    function View(): Branch
      reads this
    {
      Branch(world, id, kind, projections, base, version)
    }

    constructor (b: Branch)
      ensures View() == b
    {
      world, id, kind := b.world, b.id, b.kind;
      projections, base, version := b.projections, b.base, b.version;
    }

    method WorkingCopy() returns (copy: BranchState)
      ensures fresh(copy) && copy.View() == View()
    {
      copy := new BranchState(View());
    }

    method CloneForTrial(branch: nat) returns (copy: BranchState)
      ensures fresh(copy) && copy.View() == ForTrial(View(), branch)
      ensures copy.world == world && copy.id == branch && copy.kind == Trial && copy.version == 0
      ensures copy.projections == projections && copy.base == Some(Hash(projections))
    {
      copy := new BranchState(ForTrial(View(), branch));
    }

    // Adds the amounts one name at a time; stops half-way when one cannot be added.
    method AddAmounts(name: string, key: Key, amounts: Fields) returns (ok: bool)
      requires name in projections && key in projections[name]
      modifies `projections
      ensures ok <==> CanAdd(old(projections)[name][key], amounts)
      ensures ok ==> projections == old(projections)[name := old(projections)[name][
                                      key := Added(old(projections)[name][key], amounts)]]
    {
      var before := projections;
      var start := before[name][key];
      var fields := start;
      var rest := amounts.Keys;
      assert amounts - rest == map[];
      AddedNothing(start);
      assert before[name][key := fields] == before[name];
      assert before[name := before[name]] == before;
      while rest != {}
        invariant rest <= amounts.Keys
        invariant CanAdd(start, amounts - rest) && fields == Added(start, amounts - rest)
        invariant projections == before[name := before[name][key := fields]]
        decreases rest
      {
        var field :| field in rest;
        AddedOneMore(start, amounts, rest, field);
        var sum := Plus(Current(fields, field), amounts[field]);
        if sum.None? { return false; }
        Overwrite(before[name], key, fields, fields[field := sum.value]);
        Overwrite(before, name, projections[name], before[name][key := fields[field := sum.value]]);
        fields := fields[field := sum.value];
        projections := projections[name := projections[name][key := fields]];
        rest := rest - {field};
      }
      assert amounts - rest == amounts;
      return true;
    }

    method Apply(d: Delta) returns (ok: bool)
      modifies `projections
      ensures ok <==> ApplyDelta(old(projections), d).Some?
      ensures ok ==> projections == ApplyDelta(old(projections), d).value
    {
      ghost var before := projections;
      var bucket := BucketOf(projections, d.projection);
      var key := KeyOf(d.entity);
      projections := projections[d.projection := bucket];
      match d.operation {
        case Delete => projections := projections[d.projection := bucket - {key}];
        case Set => projections := projections[d.projection := bucket[key := d.values]];
        case Merge => projections := projections[d.projection := bucket[key := RecordOf(bucket, key) + d.values]];
        case Increment =>
          projections := projections[d.projection := bucket[key := RecordOf(bucket, key)]];
          ghost var prepared := projections;
          ok := AddAmounts(d.projection, key, d.values);
          if ok {
            ghost var record := RecordOf(bucket, key);
            Overwrite(bucket, key, record, Added(record, d.values));
            Overwrite(before, d.projection, bucket, prepared[d.projection]);
            Overwrite(before, d.projection, prepared[d.projection], projections[d.projection]);
          }
          return;
      }
      return true;
    }

    method ApplyEach(deltas: seq<Delta>) returns (ok: bool)
      modifies `projections
      ensures ok <==> ApplyAll(old(projections), deltas).Some?
      ensures ok ==> projections == ApplyAll(old(projections), deltas).value
    {
      var i := 0;
      while i < |deltas|
        invariant 0 <= i <= |deltas|
        invariant ApplyAll(old(projections), deltas[..i]) == Some(projections)
      {
        assert deltas[..i + 1][..i] == deltas[..i];
        ok := Apply(deltas[i]);
        i := i + 1;
        if !ok {
          ApplyAllConcat(old(projections), deltas[..i], deltas[i..]);
          assert deltas[..i] + deltas[i..] == deltas;
          return;
        }
      }
      assert deltas[..i] == deltas;
      return true;
    }
  }

  /** What can be added: texts and lists to their like, numbers and flags to each other, and nothing else. */
  lemma PlusMeans(a: Value, b: Value)
    ensures a.Text? && b.Text? ==> Plus(a, b) == Some(Text(a.s + b.s))
    ensures a.Items? && b.Items? ==> Plus(a, b) == Some(Items(a.items + b.items))
    ensures a.Number? && b.Number? ==> Plus(a, b) == Some(Number(a.n + b.n))
    ensures a.Number? && b.Flag? ==> Plus(a, b) == Some(Number(if b.b then a.n + 1 else a.n))
    ensures a.Flag? && b.Number? ==> Plus(a, b) == Plus(b, a)
    ensures a.Flag? && b.Flag? ==> Plus(a, b) == Some(Number(if a.b && b.b then 2 else if a.b || b.b then 1 else 0))
    ensures Plus(a, b).Some? <==>
            (a.Text? && b.Text?) || (a.Items? && b.Items?) || ((a.Number? || a.Flag?) && (b.Number? || b.Flag?))
  {
  }
}
