/** Line-of-sight confidence between positions on the grid, and the entities an observer sees. */
module Sight {
  import opened GridLine

  datatype Position = Position(zone: string, x: int, y: int, z: int)

  datatype Occluder = Occluder(zone: string, x: int, y: int, opacity: real)

  // Rooms by their ambient light. The room "world" is always there, fully lit unless configured.
  type Zones = map<string, real>

  datatype Scene = Scene(
    positions: map<string, Position>, invisible: set<string>, configured: Zones, occluders: seq<Occluder>)

  function AllZones(configured: Zones): Zones {
    map["world" := 1.0] + configured
  }

  function Light(configured: Zones, zone: string): real {
    var zones := AllZones(configured);
    if zone in zones then zones[zone] else zones["world"]
  }

  // Euclidean distance, taken as an arbitrary function of the coordinate differences.
  type Metric = (nat, nat, nat) -> real

  function Distance(metric: Metric, a: Position, b: Position): real {
    metric(Abs(a.x - b.x), Abs(a.y - b.y), Abs(a.z - b.z))
  }

  // All but the first and last cell.
  function Interior(cells: seq<Cell>): seq<Cell> {
    if |cells| <= 2 then [] else cells[1..|cells| - 1]
  }

  function Opacity(occluders: seq<Occluder>, zone: string, line: set<Cell>): real {
    if occluders == [] then 0.0
    else
      var last := occluders[|occluders| - 1];
      Opacity(occluders[..|occluders| - 1], zone, line)
      + if last.zone == zone && Cell(last.x, last.y) in line then last.opacity else 0.0
  }

  function SightLine(a: Position, b: Position): set<Cell> {
    set c | c in Interior(Line(Cell(a.x, a.y), Cell(b.x, b.y)))
  }

  function Strength(distance: real, range: real, opacity: real): real {
    if distance > range || opacity >= 1.0 then 0.0
    else Max(0.05, (1.0 - distance / Max(range, 1.0)) * (1.0 - opacity))
  }

  function SightConfidence(
    metric: Metric, origin: Position, observer: Position, maxRange: real, scene: Scene): real
  {
    if origin.zone != observer.zone then 0.0
    else
      Strength(
        Distance(metric, origin, observer),
        maxRange * Max(0.05, Light(scene.configured, origin.zone)),
        Opacity(scene.occluders, origin.zone, SightLine(origin, observer)))
  }

  // Half-to-even rounding to six decimals.
  function RoundToMicro(x: real): real {
    var scaled := x * 1000000.0;
    var low := scaled.Floor;
    var rest := scaled - low as real;
    var n := if rest < 0.5 || (rest == 0.5 && low % 2 == 0) then low else low + 1;
    n as real / 1000000.0
  }

  // What the observer would see of the target, before rounding; zero for what it cannot see.
  function Glimpse(metric: Metric, scene: Scene, observer: string, target: string, maxRange: real): real
    requires observer in scene.positions && target in scene.positions
  {
    if target == observer || target in scene.invisible then 0.0
    else SightConfidence(metric, scene.positions[target], scene.positions[observer], maxRange, scene)
  }

  // The seen entities and their rounded confidences.
  function Seen(glimpses: map<string, real>): map<string, real> {
    map target | target in glimpses && glimpses[target] > 0.0 :: RoundToMicro(glimpses[target])
  }

  function Glimpses(metric: Metric, scene: Scene, observer: string, maxRange: real): map<string, real>
    requires observer in scene.positions
  {
    map target | target in scene.positions :: Glimpse(metric, scene, observer, target, maxRange)
  }

  // The rounded confidence by entity, the observer's own being one.
  function VisibleTo(metric: Metric, scene: Scene, observer: string, maxRange: real): map<string, real> {
    if observer !in scene.positions then map[]
    else map[observer := 1.0] + Seen(Glimpses(metric, scene, observer, maxRange))
  }

  lemma SeenOneMore(glimpses: map<string, real>, rest: set<string>, target: string)
    requires target in rest && target in glimpses
    ensures var before, after := Seen(glimpses - rest), Seen(glimpses - (rest - {target}));
            after == if glimpses[target] > 0.0 then before[target := RoundToMicro(glimpses[target])] else before
  {
  }

  // The loop over the targets, given what the observer would see of each.
  method Collect(glimpses: map<string, real>, observer: string) returns (visible: map<string, real>)
    requires observer in glimpses && glimpses[observer] == 0.0
    ensures visible == map[observer := 1.0] + Seen(glimpses)
  {
    ghost var own := map[observer := 1.0];
    visible := map[observer := 1.0];
    var rest := glimpses.Keys;
    assert Seen(glimpses - rest) == map[];
    while rest != {}
      invariant rest <= glimpses.Keys
      invariant visible == own + Seen(glimpses - rest)
      decreases rest
    {
      var target :| target in rest;
      SeenOneMore(glimpses, rest, target);
      rest := rest - {target};
      if glimpses[target] > 0.0 {
        visible := visible[target := RoundToMicro(glimpses[target])];
      }
    }
    assert glimpses - rest == glimpses;
  }

  method VisibleEntities(metric: Metric, scene: Scene, observer: string, maxRange: real)
    returns (visible: map<string, real>)
    ensures visible == VisibleTo(metric, scene, observer, maxRange)
  {
    if observer !in scene.positions { return map[]; }
    visible := Collect(Glimpses(metric, scene, observer, maxRange), observer);
  }

  lemma DistanceSymmetric(metric: Metric, a: Position, b: Position)
    ensures Distance(metric, a, b) == Distance(metric, b, a)
  {
    assert Abs(a.x - b.x) == Abs(b.x - a.x) && Abs(a.y - b.y) == Abs(b.y - a.y) && Abs(a.z - b.z) == Abs(b.z - a.z);
  }

  lemma InteriorAt(cells: seq<Cell>, c: Cell)
    ensures c in Interior(cells) <==> exists i :: 0 < i < |cells| - 1 && cells[i] == c
  {
    if c in Interior(cells) {
      var i :| 0 <= i < |Interior(cells)| && Interior(cells)[i] == c;
      assert cells[i + 1] == c;
    }
    if i :| 0 < i < |cells| - 1 && cells[i] == c {
      assert Interior(cells)[i - 1] == c;
    }
  }

  lemma InteriorReversed(cells: seq<Cell>, c: Cell)
    ensures c in Interior(Reversed(cells)) <==> c in Interior(cells)
  {
    var back := Reversed(cells);
    InteriorAt(cells, c);
    InteriorAt(back, c);
    if i :| 0 < i < |cells| - 1 && cells[i] == c {
      assert back[|cells| - 1 - i] == c;
    }
  }

  lemma SightLineSymmetric(a: Position, b: Position)
    ensures SightLine(a, b) == SightLine(b, a)
  {
    var p, q := Cell(a.x, a.y), Cell(b.x, b.y);
    LineReversed(p, q);
    forall c ensures c in Interior(Line(p, q)) <==> c in Interior(Line(q, p)) {
      InteriorReversed(Line(p, q), c);
    }
  }

  // How far one sees in a light: a twentieth of the range is always left.
  function Reach(maxRange: real, light: real): real {
    maxRange * if light < 0.05 then 0.05 else light
  }

  lemma ConfidenceIsStrength(metric: Metric, a: Position, b: Position, maxRange: real, scene: Scene, line: set<Cell>)
    requires line == SightLine(a, b)
    ensures SightConfidence(metric, a, b, maxRange, scene) ==
            if a.zone != b.zone then 0.0
            else Strength(metric(Abs(a.x - b.x), Abs(a.y - b.y), Abs(a.z - b.z)),
                          Reach(maxRange, Light(scene.configured, a.zone)), Opacity(scene.occluders, a.zone, line))
  {
  }

  /** Sight confidence does not depend on which end observes. */
  lemma SightSymmetric(metric: Metric, a: Position, b: Position, maxRange: real, scene: Scene)
    ensures SightConfidence(metric, a, b, maxRange, scene) == SightConfidence(metric, b, a, maxRange, scene)
  {
    DistanceSymmetric(metric, a, b);
    SightLineSymmetric(a, b);
    var line := SightLine(a, b);
    ConfidenceIsStrength(metric, a, b, maxRange, scene, line);
    ConfidenceIsStrength(metric, b, a, maxRange, scene, line);
  }

  /** Two visible entities see each other with equal confidence or not at all. */
  lemma MutualSight(metric: Metric, scene: Scene, a: string, b: string, maxRange: real)
    requires a in scene.positions && b in scene.positions && a != b
    requires a !in scene.invisible && b !in scene.invisible
    ensures var fromA, fromB := VisibleTo(metric, scene, a, maxRange), VisibleTo(metric, scene, b, maxRange);
            (b in fromA <==> a in fromB) && (b in fromA ==> fromA[b] == fromB[a])
  {
    SightSymmetric(metric, scene.positions[a], scene.positions[b], maxRange, scene);
  }

  lemma {:induction false} OpacityNonNegative(occluders: seq<Occluder>, zone: string, line: set<Cell>)
    requires forall i :: 0 <= i < |occluders| ==> 0.0 <= occluders[i].opacity
    ensures 0.0 <= Opacity(occluders, zone, line)
  {
    if occluders != [] { OpacityNonNegative(occluders[..|occluders| - 1], zone, line); }
  }

  lemma UnitProduct(p: real, q: real)
    requires 0.0 <= p <= 1.0 && 0.0 <= q <= 1.0
    ensures p * q <= 1.0
  {
    assert (1.0 - p) * q >= 0.0;
    assert (1.0 - p) * q == q - p * q;
  }

  lemma StrengthBounds(distance: real, range: real, opacity: real)
    requires 0.0 <= distance && 0.0 <= opacity
    ensures var s := Strength(distance, range, opacity);
            if distance > range || opacity >= 1.0 then s == 0.0 else 0.05 <= s <= 1.0
  {
    if distance <= range && opacity < 1.0 {
      var scale := Max(range, 1.0);
      var q := distance / scale;
      assert q * scale == distance;
      assert (1.0 - q) * scale == scale - distance;
      assert 0.0 <= q <= 1.0;
      UnitProduct(1.0 - q, 1.0 - opacity);
    }
  }

  /**
    A confidence is zero exactly when the view is out of range or fully blocked,
    and lies between the floor of 0.05 and one otherwise.
   */
  lemma SightBounds(metric: Metric, a: Position, b: Position, maxRange: real, scene: Scene)
    requires 0.0 <= Distance(metric, a, b) && a.zone == b.zone
    requires forall i :: 0 <= i < |scene.occluders| ==> 0.0 <= scene.occluders[i].opacity
    ensures var s := SightConfidence(metric, a, b, maxRange, scene);
            if || Distance(metric, a, b) > maxRange * Max(0.05, Light(scene.configured, a.zone))
               || Opacity(scene.occluders, a.zone, SightLine(a, b)) >= 1.0
            then s == 0.0 else 0.05 <= s <= 1.0
  {
    var distance := Distance(metric, a, b);
    var range := maxRange * Max(0.05, Light(scene.configured, a.zone));
    var opacity := Opacity(scene.occluders, a.zone, SightLine(a, b));
    OpacityNonNegative(scene.occluders, a.zone, SightLine(a, b));
    assert SightConfidence(metric, a, b, maxRange, scene) == Strength(distance, range, opacity);
    StrengthBounds(distance, range, opacity);
  }

  /* ---- What is seen, written out ---- */

  // Together the opacity of the occluders of a zone on a set of cells.
  ghost predicate Blocks(occluders: seq<Occluder>, zone: string, line: set<Cell>, total: real)
    decreases |occluders|
  {
    if occluders == [] then total == 0.0
    else
      var o := occluders[0];
      if o.zone == zone && Cell(o.x, o.y) in line then Blocks(occluders[1..], zone, line, total - o.opacity)
      else Blocks(occluders[1..], zone, line, total)
  }

  lemma {:induction false} BlocksMore(occluders: seq<Occluder>, o: Occluder, zone: string, line: set<Cell>, total: real)
    requires Blocks(occluders, zone, line, total)
    ensures Blocks(occluders + [o], zone, line,
                   if o.zone == zone && Cell(o.x, o.y) in line then total + o.opacity else total)
    decreases |occluders|
  {
    if occluders == [] {
      assert (occluders + [o])[1..] == [];
    } else {
      assert (occluders + [o])[1..] == occluders[1..] + [o];
      var first := occluders[0];
      BlocksMore(occluders[1..], o, zone, line,
                 if first.zone == zone && Cell(first.x, first.y) in line then total - first.opacity else total);
    }
  }

  lemma {:induction false} OpacityBlocks(occluders: seq<Occluder>, zone: string, line: set<Cell>)
    ensures Blocks(occluders, zone, line, Opacity(occluders, zone, line))
  {
    if occluders != [] {
      var front, last := occluders[..|occluders| - 1], occluders[|occluders| - 1];
      OpacityBlocks(front, zone, line);
      BlocksMore(front, last, zone, line, Opacity(front, zone, line));
      assert front + [last] == occluders;
    }
  }

  // The light of a zone, of the zone "world" for one that is not configured, and full light without that.
  predicate LitBy(configured: Zones, zone: string, light: real) {
    if zone in configured then light == configured[zone]
    else if "world" in configured then light == configured["world"]
    else light == 1.0
  }

  // The greater of the two.
  predicate Greater(a: real, b: real, m: real) {
    m >= a && m >= b && (m == a || m == b)
  }

  // What a confidence is made of: the share of the reach that is left, and what the occluders let through.
  predicate SeenWithin(distance: real, reach: real, opacity: real, s: real) {
    if distance > reach || opacity >= 1.0 then s == 0.0
    else
      var scale := if reach < 1.0 then 1.0 else reach;
      Greater(0.05, (scale - distance) * (1.0 - opacity) / scale, s)
  }

  lemma ShareLeft(distance: real, scale: real, q: real)
    requires scale >= 1.0
    ensures (1.0 - distance / scale) * q == (scale - distance) * q / scale
  {
    var d := distance / scale;
    assert d * scale == distance;
    assert ((1.0 - d) * q) * scale == (scale - distance) * q;
  }

  lemma StrengthWithin(distance: real, reach: real, opacity: real)
    ensures SeenWithin(distance, reach, opacity, Strength(distance, reach, opacity))
  {
    var scale := if reach < 1.0 then 1.0 else reach;
    ShareLeft(distance, scale, 1.0 - opacity);
    if distance <= reach && opacity < 1.0 {
      var left := (scale - distance) * (1.0 - opacity) / scale;
      assert Max(reach, 1.0) == scale && Strength(distance, reach, opacity) == Max(0.05, left);
    }
  }

  /**
   * Between positions of one zone, with the light of the zone and the occluders on the cells strictly between: nothing
   * beyond the lit range or behind full opacity, and otherwise the share of the range that is left times what the
   * occluders let through, but at least 0.05. Between zones nothing.
   */
  lemma SightByFormula(metric: Metric, a: Position, b: Position, maxRange: real, scene: Scene, line: set<Cell>)
    returns (light: real, opacity: real)
    requires line == SightLine(a, b)
    ensures LitBy(scene.configured, a.zone, light) && Blocks(scene.occluders, a.zone, line, opacity)
    ensures var s := SightConfidence(metric, a, b, maxRange, scene);
            if a.zone != b.zone then s == 0.0
            else
              SeenWithin(metric(Abs(a.x - b.x), Abs(a.y - b.y), Abs(a.z - b.z)), Reach(maxRange, light), opacity, s)
  {
    light, opacity := Light(scene.configured, a.zone), Opacity(scene.occluders, a.zone, line);
    OpacityBlocks(scene.occluders, a.zone, line);
    ConfidenceIsStrength(metric, a, b, maxRange, scene, line);
    StrengthWithin(metric(Abs(a.x - b.x), Abs(a.y - b.y), Abs(a.z - b.z)), Reach(maxRange, light), opacity);
  }

  /** The cells that can block are those strictly between the ends of the walk. */
  lemma SightLineInside(a: Position, b: Position, c: Cell)
    ensures var walk := Line(Cell(a.x, a.y), Cell(b.x, b.y));
            c in SightLine(a, b) <==> exists i :: 0 < i < |walk| - 1 && walk[i] == c
  {
    InteriorAt(Line(Cell(a.x, a.y), Cell(b.x, b.y)), c);
  }

  function ConfidenceAt(metric: Metric, scene: Scene, observer: string, target: string, maxRange: real): real
    requires observer in scene.positions
  {
    if target !in scene.positions then 0.0
    else SightConfidence(metric, scene.positions[target], scene.positions[observer], maxRange, scene)
  }

  /**
   * An observer without a position sees nothing; otherwise itself, and whatever is not invisible and has confidence.
   */
  lemma VisibleExactly(metric: Metric, scene: Scene, observer: string, maxRange: real, target: string)
    ensures var seen := VisibleTo(metric, scene, observer, maxRange);
            && (observer !in scene.positions ==> seen == map[])
            && (observer in scene.positions ==>
                  && observer in seen && seen[observer] == 1.0
                  && (target != observer ==>
                        var s := ConfidenceAt(metric, scene, observer, target, maxRange);
                        && (target in seen <==> target !in scene.invisible && s > 0.0)
                        && (target in seen ==> Nearest(s, seen[target]))))
  {
    if observer in scene.positions { RoundedIsNearest(ConfidenceAt(metric, scene, observer, target, maxRange)); }
  }

  // The nearest number with six decimals, and of two equally near ones the even one.
  ghost predicate Nearest(x: real, r: real) {
    exists n: int ::
      && r == Millionths(n) && 2.0 * x * 1000000.0 - 1.0 <= 2.0 * n as real <= 2.0 * x * 1000000.0 + 1.0
      && (2.0 * n as real - 2.0 * x * 1000000.0 in {-1.0, 1.0} ==> n % 2 == 0)
  }

  function Millionths(n: int): real {
    n as real / 1000000.0
  }

  lemma RoundedIsNearest(x: real)
    ensures Nearest(x, RoundToMicro(x))
  {
    var scaled := x * 1000000.0;
    var low := scaled.Floor;
    var rest := scaled - low as real;
    var n := if rest < 0.5 || (rest == 0.5 && low % 2 == 0) then low else low + 1;
    assert RoundToMicro(x) == Millionths(n);
  }
}
