/**
  How strongly a stimulus carries from one zone to another through portals: a breadth-first search
  that may put a zone back in the queue when it is reached again more strongly.
 */
module ZoneTransmission {
  import opened Wrappers

  datatype Modality = Sight | Sound | Touch | Magic

  datatype PortalState = Open | Closed | Locked

  datatype Portal = Portal(fromZone: string, toZone: string, state: PortalState, sight: real, sound: real)

  datatype Net = Net(portals: seq<Portal>, modality: Modality, start: string, goal: string)

  predicate ValidPortals(portals: seq<Portal>) {
    forall i :: 0 <= i < |portals| ==> 0.0 <= portals[i].sight <= 1.0 && 0.0 <= portals[i].sound <= 1.0
  }

  function Base(p: Portal, modality: Modality): real {
    var through := if modality.Sound? then p.sound else p.sight;
    if p.state.Open? then through else through * 0.2
  }

  predicate Touches(p: Portal, zone: string) {
    zone == p.fromZone || zone == p.toZone
  }

  function Across(p: Portal, zone: string): string {
    if zone == p.fromZone then p.toZone else p.fromZone
  }

  /* ---- Walks through portals, named by their positions ---- */

  // The zone a walk from the start ends in, if each portal touches the zone it is entered from.
  function End(net: Net, walk: seq<nat>): Option<string> {
    if walk == [] then Some(net.start)
    else
      var last := walk[|walk| - 1];
      match End(net, walk[..|walk| - 1])
      case None => None
      case Some(zone) =>
        if last < |net.portals| && Touches(net.portals[last], zone)
        then Some(Across(net.portals[last], zone)) else None
  }

  function Factor(net: Net, i: nat): real {
    if i < |net.portals| then Base(net.portals[i], net.modality) else 0.0
  }

  function Product(factors: seq<real>): real {
    if factors == [] then 1.0 else Product(factors[..|factors| - 1]) * factors[|factors| - 1]
  }

  function Factors(net: Net, walk: seq<nat>): seq<real> {
    seq(|walk|, i requires 0 <= i < |walk| => Factor(net, walk[i]))
  }

  // The product of the transmissions along a walk.
  function Strength(net: Net, walk: seq<nat>): real {
    Product(Factors(net, walk))
  }

  ghost predicate Carries(net: Net, zone: string, walk: seq<nat>) {
    End(net, walk) == Some(zone) && Strength(net, walk) > 0.0
  }

  ghost predicate Within(net: Net, zone: string, hops: nat) {
    exists walk :: Carries(net, zone, walk) && |walk| <= hops
  }

  lemma FactorRange(net: Net, i: nat)
    requires ValidPortals(net.portals)
    ensures 0.0 <= Factor(net, i) <= 1.0
  {
  }

  lemma Fades(strength: real, base: real, product: real)
    requires 0.0 <= strength && 0.0 <= base <= 1.0 && product == strength * base
    ensures 0.0 <= product <= strength
  {
    assert strength * (1.0 - base) == strength - product;
  }

  lemma ProductSnoc(factors: seq<real>, factor: real)
    ensures Product(factors + [factor]) == Product(factors) * factor
  {
    assert (factors + [factor])[..|factors|] == factors;
  }

  lemma {:induction false} ProductRange(factors: seq<real>)
    requires forall i :: 0 <= i < |factors| ==> 0.0 <= factors[i] <= 1.0
    ensures 0.0 <= Product(factors) <= 1.0
  {
    if factors != [] {
      var shorter := factors[..|factors| - 1];
      ProductRange(shorter);
      Fades(Product(shorter), factors[|factors| - 1], Product(factors));
    }
  }

  lemma StrengthRange(net: Net, walk: seq<nat>)
    requires ValidPortals(net.portals)
    ensures 0.0 <= Strength(net, walk) <= 1.0
  {
    forall i | 0 <= i < |walk| ensures 0.0 <= Factors(net, walk)[i] <= 1.0 {
      FactorRange(net, walk[i]);
    }
    ProductRange(Factors(net, walk));
  }

  lemma StrengthSnoc(net: Net, walk: seq<nat>, i: nat)
    ensures Strength(net, walk + [i]) == Strength(net, walk) * Factor(net, i)
  {
    ProductSnoc(Factors(net, walk), Factor(net, i));
    assert Factors(net, walk + [i]) == Factors(net, walk) + [Factor(net, i)];
  }

  lemma StrengthFades(net: Net, walk: seq<nat>)
    requires ValidPortals(net.portals) && walk != []
    ensures 0.0 <= Strength(net, walk) <= Strength(net, walk[..|walk| - 1])
  {
    var last, shorter := walk[|walk| - 1], walk[..|walk| - 1];
    assert walk == shorter + [last];
    StrengthSnoc(net, shorter, last);
    StrengthRange(net, shorter);
    FactorRange(net, last);
    Fades(Strength(net, shorter), Factor(net, last), Strength(net, walk));
  }

  /* ---- Strength by the fields of the portals ---- */

  // What the portals of a walk let through when open: sound for sound, and sight for everything else.
  function Through(net: Net, walk: seq<nat>): real
    requires forall i :: 0 <= i < |walk| ==> walk[i] < |net.portals|
  {
    if walk == [] then 1.0
    else
      var p := net.portals[walk[|walk| - 1]];
      Through(net, walk[..|walk| - 1]) * if net.modality == Sound then p.sound else p.sight
  }

  // The places on a walk where a portal is closed or locked.
  function Shut(net: Net, walk: seq<nat>): set<nat>
    requires forall i :: 0 <= i < |walk| ==> walk[i] < |net.portals|
  {
    set i: nat | i < |walk| && (net.portals[walk[i]].state == Closed || net.portals[walk[i]].state == Locked)
  }

  function Fifths(n: nat): real {
    if n == 0 then 1.0 else Fifths(n - 1) / 5.0
  }

  lemma {:induction false} FifthsFade(n: nat)
    ensures 0.0 < Fifths(n) <= 1.0
  {
    if n > 0 { FifthsFade(n - 1); }
  }

  lemma ShutMore(net: Net, front: seq<nat>, last: nat)
    requires last < |net.portals| && forall i :: 0 <= i < |front| ==> front[i] < |net.portals|
    ensures |Shut(net, front + [last])| == |Shut(net, front)| + if net.portals[last].state == Open then 0 else 1
  {
    var walk := front + [last];
    assert Shut(net, walk) == Shut(net, front) + if net.portals[last].state == Open then {} else {|front|};
  }

  lemma Regroup(through: real, fifths: real, factor: real)
    ensures (through * fifths) * factor == (through * factor) * fifths
    ensures (through * fifths) * (factor * 0.2) == (through * factor) * (fifths / 5.0)
  {
    assert fifths / 5.0 == fifths * 0.2;
    assert (through * fifths) * factor == (through * factor) * fifths;
    assert (through * fifths) * (factor * 0.2) == ((through * fifths) * factor) * 0.2;
    assert (through * factor) * (fifths * 0.2) == ((through * factor) * fifths) * 0.2;
  }

  lemma {:induction false} ThroughRange(net: Net, walk: seq<nat>)
    requires ValidPortals(net.portals) && forall i :: 0 <= i < |walk| ==> walk[i] < |net.portals|
    ensures 0.0 <= Through(net, walk) <= 1.0
  {
    if walk != [] {
      var p := net.portals[walk[|walk| - 1]];
      ThroughRange(net, walk[..|walk| - 1]);
      Fades(Through(net, walk[..|walk| - 1]), if net.modality == Sound then p.sound else p.sight, Through(net, walk));
    }
  }

  /**
   * The strength of a walk is the product of what its portals let through, for sound or for everything else, times one
   * fifth for each portal on it that is closed or locked.
   */
  lemma {:induction false} StrengthByFields(net: Net, walk: seq<nat>)
    requires forall i :: 0 <= i < |walk| ==> walk[i] < |net.portals|
    ensures Strength(net, walk) == Through(net, walk) * Fifths(|Shut(net, walk)|)
  {
    if walk == [] {
      assert Factors(net, walk) == [] && Shut(net, walk) == {};
    } else {
      var front, last := walk[..|walk| - 1], walk[|walk| - 1];
      assert walk == front + [last];
      StrengthByFields(net, front);
      StrengthSnoc(net, front, last);
      ShutMore(net, front, last);
      var p := net.portals[last];
      Regroup(Through(net, front), Fifths(|Shut(net, front)|), if net.modality == Sound then p.sound else p.sight);
    }
  }

  lemma {:induction false} EndInside(net: Net, walk: seq<nat>)
    requires End(net, walk).Some?
    ensures forall i :: 0 <= i < |walk| ==> walk[i] < |net.portals|
  {
    if walk != [] { EndInside(net, walk[..|walk| - 1]); }
  }

  // A walk into a zone whose portals, by their fields, give this strength.
  ghost predicate Gives(net: Net, zone: string, walk: seq<nat>, r: real) {
    && End(net, walk) == Some(zone) && (forall i :: 0 <= i < |walk| ==> walk[i] < |net.portals|)
    && r == Through(net, walk) * Fifths(|Shut(net, walk)|) && 0.0 < r <= Fifths(|Shut(net, walk)|)
  }

  lemma StrengthGives(net: Net, zone: string, walk: seq<nat>)
    requires ValidPortals(net.portals) && Carries(net, zone, walk)
    ensures Gives(net, zone, walk, Strength(net, walk))
  {
    EndInside(net, walk);
    StrengthByFields(net, walk);
    ThroughRange(net, walk);
    FifthsFade(|Shut(net, walk)|);
    Fades(Fifths(|Shut(net, walk)|), Through(net, walk), Strength(net, walk));
  }

  // A prefix of a carrying walk carries at least as strongly.
  lemma {:induction false} PrefixCarries(net: Net, walk: seq<nat>, i: nat)
    requires ValidPortals(net.portals) && i <= |walk| && End(net, walk).Some?
    ensures End(net, walk[..i]).Some? && Strength(net, walk[..i]) >= Strength(net, walk)
  {
    if i == |walk| {
      assert walk[..i] == walk;
    } else {
      var shorter := walk[..|walk| - 1];
      assert shorter[..i] == walk[..i];
      StrengthFades(net, walk);
      PrefixCarries(net, shorter, i);
    }
  }

  lemma Extend(net: Net, walk: seq<nat>, i: nat, zone: string)
    requires End(net, walk) == Some(zone) && i < |net.portals| && Touches(net.portals[i], zone)
    ensures End(net, walk + [i]) == Some(Across(net.portals[i], zone))
    ensures Strength(net, walk + [i]) == Strength(net, walk) * Factor(net, i)
  {
    assert (walk + [i])[..|walk|] == walk;
    StrengthSnoc(net, walk, i);
  }

  /* ---- The invariant of the search ---- */

  datatype Entry = Entry(zone: string, strength: real)

  type Best = map<string, real>

  ghost predicate Heard(net: Net, best: Best, prefix: seq<nat>) {
    && End(net, prefix).Some?
    && End(net, prefix).value in best
    && Strength(net, prefix) <= best[End(net, prefix).value]
  }

  ghost predicate Apart(net: Net, a: seq<nat>, b: seq<nat>) {
    End(net, a).Some? && End(net, b).Some? ==> End(net, a) != End(net, b)
  }

  ghost predicate Trail(net: Net, best: Best, walk: seq<nat>) {
    && (forall i :: 0 <= i <= |walk| ==> Heard(net, best, walk[..i]))
    && (forall i, j :: 0 <= i < j <= |walk| ==> Apart(net, walk[..i], walk[..j]))
  }

  ghost predicate EntryOk(net: Net, best: Best, e: Entry, walk: seq<nat>) {
    Carries(net, e.zone, walk) && Strength(net, walk) == e.strength && Trail(net, best, walk)
  }

  ghost predicate Open1(net: Net, best: Best, zone: string, i: nat)
    requires i < |net.portals|
  {
    Touches(net.portals[i], zone) && Factor(net, i) > 0.0 ==>
      Across(net.portals[i], zone) in best
  }

  // Every zone one carrying portal away has been reached.
  ghost predicate Spread(net: Net, best: Best, zone: string) {
    zone in best && forall i :: 0 <= i < |net.portals| ==> Open1(net, best, zone, i)
  }

  ghost predicate Waiting(queue: seq<Entry>, n: nat, zone: string)
    requires n <= |queue|
  {
    exists i :: 0 <= i < n && queue[i].zone == zone
  }

  // The zone is yet to be expanded, or fully expanded, or being expanded.
  ghost predicate Covered(net: Net, queue: seq<Entry>, n: nat, best: Best, busy: set<string>, zone: string)
    requires n <= |queue|
  {
    Waiting(queue, n, zone) || Spread(net, best, zone) || zone in busy
  }

  // The queue holds the remaining entries reached in `hop` portals, then those reached in one more.
  ghost predicate Layered(walks: seq<seq<nat>>, hop: nat, n: nat) {
    n <= |walks| && forall i :: 0 <= i < |walks| ==> |walks[i]| == if i < n then hop else hop + 1
  }

  ghost predicate Entries(net: Net, queue: seq<Entry>, walks: seq<seq<nat>>, best: Best) {
    |queue| == |walks| && forall i :: 0 <= i < |queue| ==> EntryOk(net, best, queue[i], walks[i])
  }

  ghost predicate BestOk(net: Net, best: Best) {
    && net.start in best && best[net.start] == 1.0
    && (net.goal != net.start ==> net.goal !in best)
    && (forall zone :: zone in best ==> best[zone] > 0.0)
  }

  ghost predicate Inv(
    net: Net, queue: seq<Entry>, walks: seq<seq<nat>>, best: Best, hop: nat, n: nat, busy: set<string>)
  {
    && Entries(net, queue, walks, best) && Layered(walks, hop, n) && BestOk(net, best)
    && (forall zone :: zone in best ==> Covered(net, queue, |queue|, best, busy, zone))
    && (forall zone :: Within(net, zone, hop) ==> Covered(net, queue, n, best, busy, zone))
  }

  ghost predicate Raises(best: Best, higher: Best) {
    forall zone :: zone in best ==> zone in higher && best[zone] <= higher[zone]
  }

  lemma EntryOkRaises(net: Net, best: Best, higher: Best, e: Entry, walk: seq<nat>)
    requires EntryOk(net, best, e, walk) && Raises(best, higher)
    ensures EntryOk(net, higher, e, walk)
  {
    forall i | 0 <= i <= |walk| ensures Heard(net, higher, walk[..i]) {
      assert Heard(net, best, walk[..i]);
    }
  }

  lemma SpreadRaises(net: Net, best: Best, higher: Best, zone: string)
    requires Spread(net, best, zone) && Raises(best, higher)
    ensures Spread(net, higher, zone)
  {
    forall i | 0 <= i < |net.portals| ensures Open1(net, higher, zone, i) {
      assert Open1(net, best, zone, i);
    }
  }

  function Known(best: Best, zone: string): real {
    if zone in best then best[zone] else 0.0
  }

  lemma ChildTrail(net: Net, best: Best, e: Entry, walk: seq<nat>, i: nat, next: string, candidate: real)
    requires ValidPortals(net.portals) && EntryOk(net, best, e, walk)
    requires End(net, walk + [i]) == Some(next) && Strength(net, walk + [i]) == candidate
    requires candidate <= e.strength && candidate > Known(best, next)
    ensures Trail(net, best[next := candidate], walk + [i])
  {
    var higher := best[next := candidate];
    var longer := walk + [i];
    var n := |walk|;
    assert longer[..n + 1] == longer;
    forall j | 0 <= j <= n
      ensures longer[..j] == walk[..j] && Heard(net, higher, longer[..j]) && Apart(net, longer[..j], longer)
    {
      assert longer[..j] == walk[..j];
      assert Heard(net, best, walk[..j]);
      PrefixCarries(net, walk, j);
    }
    forall j, k | 0 <= j < k <= n + 1 ensures Apart(net, longer[..j], longer[..k]) {
      if k <= n { assert Apart(net, walk[..j], walk[..k]); }
    }
  }

  lemma EntriesPush(net: Net, queue: seq<Entry>, walks: seq<seq<nat>>, best: Best,
                    child: Entry, longer: seq<nat>)
    requires Entries(net, queue, walks, best) && Raises(best, best[child.zone := child.strength])
    requires EntryOk(net, best[child.zone := child.strength], child, longer)
    ensures Entries(net, queue + [child], walks + [longer], best[child.zone := child.strength])
  {
    var higher := best[child.zone := child.strength];
    forall j | 0 <= j < |queue| ensures EntryOk(net, higher, (queue + [child])[j], (walks + [longer])[j]) {
      EntryOkRaises(net, best, higher, queue[j], walks[j]);
    }
  }

  lemma CoveredPush(net: Net, queue: seq<Entry>, m: nat, best: Best, busy: set<string>, zone: string, child: Entry)
    requires m <= |queue| && Covered(net, queue, m, best, busy, zone)
    requires Raises(best, best[child.zone := child.strength])
    ensures Covered(net, queue + [child], m, best[child.zone := child.strength], busy, zone)
    ensures Covered(net, queue + [child], |queue| + 1, best[child.zone := child.strength], busy, zone)
  {
    if Waiting(queue, m, zone) {
      var j :| 0 <= j < m && queue[j].zone == zone;
      assert (queue + [child])[j].zone == zone;
    } else if Spread(net, best, zone) {
      SpreadRaises(net, best, best[child.zone := child.strength], zone);
    }
  }

  // A stronger way into a zone cannot already pass through that zone.
  lemma PushKeeps(
    net: Net, queue: seq<Entry>, walks: seq<seq<nat>>, best: Best, hop: nat, n: nat, busy: set<string>,
    e: Entry, walk: seq<nat>, i: nat, next: string, candidate: real)
    requires ValidPortals(net.portals) && Inv(net, queue, walks, best, hop, n, busy)
    requires EntryOk(net, best, e, walk) && |walk| == hop
    requires End(net, walk + [i]) == Some(next) && Strength(net, walk + [i]) == candidate
    requires candidate > Known(best, next) && candidate > 0.0 && (next == net.goal ==> net.goal == net.start)
    ensures Inv(net, queue + [Entry(next, candidate)], walks + [walk + [i]], best[next := candidate], hop, n, busy)
    ensures EntryOk(net, best[next := candidate], e, walk)
    ensures Raises(best, best[next := candidate])
  {
    var higher := best[next := candidate];
    var child, longer := Entry(next, candidate), walk + [i];
    assert longer[..|walk|] == walk;
    StrengthFades(net, longer);
    StrengthRange(net, walk);
    ChildTrail(net, best, e, walk, i, next, candidate);
    EntryOkRaises(net, best, higher, e, walk);
    EntriesPush(net, queue, walks, best, child, longer);
    var queue1 := queue + [child];
    forall zone | zone in higher ensures Covered(net, queue1, |queue1|, higher, busy, zone) {
      if zone == next {
        assert queue1[|queue|].zone == next;
      } else {
        CoveredPush(net, queue, |queue|, best, busy, zone, child);
      }
    }
    forall zone | Within(net, zone, hop) ensures Covered(net, queue1, n, higher, busy, zone) {
      CoveredPush(net, queue, n, best, busy, zone, child);
    }
  }

  lemma CoveredPop(net: Net, queue: seq<Entry>, m: nat, best: Best, zone: string)
    requires 0 < m <= |queue| && Covered(net, queue, m, best, {}, zone)
    ensures Covered(net, queue[1..], m - 1, best, {queue[0].zone}, zone)
  {
    if zone != queue[0].zone && Waiting(queue, m, zone) {
      var j :| 0 <= j < m && queue[j].zone == zone;
      assert queue[1..][j - 1].zone == zone;
    }
  }

  lemma EntryZoneKnown(net: Net, best: Best, e: Entry, walk: seq<nat>)
    requires EntryOk(net, best, e, walk)
    ensures e.zone in best
  {
    assert Heard(net, best, walk[..|walk|]);
    assert walk[..|walk|] == walk;
  }

  lemma PopKeeps(net: Net, queue: seq<Entry>, walks: seq<seq<nat>>, best: Best, hop: nat, n: nat)
    requires Inv(net, queue, walks, best, hop, n, {}) && n > 0
    ensures EntryOk(net, best, queue[0], walks[0]) && |walks[0]| == hop && queue[0].zone in best
    ensures Inv(net, queue[1..], walks[1..], best, hop, n - 1, {queue[0].zone})
  {
    EntryZoneKnown(net, best, queue[0], walks[0]);
    var busy := {queue[0].zone};
    forall i | 0 <= i < |queue[1..]| ensures EntryOk(net, best, queue[1..][i], walks[1..][i]) {
      assert EntryOk(net, best, queue[i + 1], walks[i + 1]);
    }
    forall zone | zone in best ensures Covered(net, queue[1..], |queue[1..]|, best, busy, zone) {
      CoveredPop(net, queue, |queue|, best, zone);
    }
    forall zone | Within(net, zone, hop) ensures Covered(net, queue[1..], n - 1, best, busy, zone) {
      CoveredPop(net, queue, n, best, zone);
    }
  }

  lemma SpreadDone(net: Net, queue: seq<Entry>, walks: seq<seq<nat>>, best: Best, hop: nat, n: nat, done: string)
    requires Inv(net, queue, walks, best, hop, n, {done}) && Spread(net, best, done)
    ensures Inv(net, queue, walks, best, hop, n, {})
  {
    forall zone | zone in best ensures Covered(net, queue, |queue|, best, {}, zone) {
      assert Covered(net, queue, |queue|, best, {done}, zone);
    }
    forall zone | Within(net, zone, hop) ensures Covered(net, queue, n, best, {}, zone) {
      assert Covered(net, queue, n, best, {done}, zone);
    }
  }

  lemma PositiveParts(net: Net, walk: seq<nat>)
    requires ValidPortals(net.portals) && walk != [] && Strength(net, walk) > 0.0
    ensures Strength(net, walk[..|walk| - 1]) > 0.0 && Factor(net, walk[|walk| - 1]) > 0.0
  {
    var last, shorter := walk[|walk| - 1], walk[..|walk| - 1];
    StrengthFades(net, walk);
    assert walk == shorter + [last];
    StrengthSnoc(net, shorter, last);
    FactorRange(net, last);
  }

  // A zone one carrying portal beyond a spread zone has been reached.
  lemma OneFurther(net: Net, best: Best, zone: string, walk: seq<nat>)
    requires ValidPortals(net.portals) && walk != [] && Carries(net, zone, walk)
    ensures var shorter := walk[..|walk| - 1];
            && End(net, shorter).Some? && Carries(net, End(net, shorter).value, shorter)
            && (Spread(net, best, End(net, shorter).value) ==> zone in best)
  {
    PositiveParts(net, walk);
    var y := End(net, walk[..|walk| - 1]).value;
    if Spread(net, best, y) {
      assert Open1(net, best, y, walk[|walk| - 1]);
    }
  }

  /** Once a whole layer has been taken from the queue, the next one is complete. */
  lemma NextLayer(net: Net, queue: seq<Entry>, walks: seq<seq<nat>>, best: Best, hop: nat)
    requires ValidPortals(net.portals) && Inv(net, queue, walks, best, hop, 0, {})
    ensures Inv(net, queue, walks, best, hop + 1, |queue|, {})
  {
    forall zone | Within(net, zone, hop + 1) ensures Covered(net, queue, |queue|, best, {}, zone) {
      var walk :| Carries(net, zone, walk) && |walk| <= hop + 1;
      if |walk| <= hop {
        assert Within(net, zone, hop);
        assert Covered(net, queue, 0, best, {}, zone);
      } else {
        OneFurther(net, best, zone, walk);
        var shorter := walk[..|walk| - 1];
        var y := End(net, shorter).value;
        assert Within(net, y, hop);
        assert Covered(net, queue, 0, best, {}, y);
      }
      assert zone in best;
    }
  }

  lemma {:induction false} AllReached(net: Net, best: Best, zone: string, walk: seq<nat>)
    requires ValidPortals(net.portals) && Carries(net, zone, walk) && net.start in best
    requires forall y :: y in best ==> Spread(net, best, y)
    ensures zone in best
    decreases |walk|
  {
    if walk != [] {
      OneFurther(net, best, zone, walk);
      AllReached(net, best, End(net, walk[..|walk| - 1]).value, walk[..|walk| - 1]);
    }
  }

  // Nothing carries to the goal in as few portals as the layer being expanded.
  lemma GoalBeyond(net: Net, queue: seq<Entry>, walks: seq<seq<nat>>, best: Best, hop: nat, n: nat, zone: string)
    requires Inv(net, queue, walks, best, hop, n, {zone}) && zone in best && net.goal != net.start
    ensures forall walk :: Carries(net, net.goal, walk) ==> |walk| > hop
  {
    forall j | 0 <= j < |queue| ensures queue[j].zone in best {
      EntryZoneKnown(net, best, queue[j], walks[j]);
    }
    assert !Covered(net, queue, n, best, {zone}, net.goal);
    assert !Within(net, net.goal, hop);
  }

  /* ---- Walks in the queue are short: the search ends ---- */

  ghost function Zones(net: Net): set<string> {
    {net.start} + (set i | 0 <= i < |net.portals| :: net.portals[i].fromZone)
    + (set i | 0 <= i < |net.portals| :: net.portals[i].toZone)
  }

  lemma EndInZones(net: Net, walk: seq<nat>)
    requires End(net, walk).Some?
    ensures End(net, walk).value in Zones(net)
  {
  }

  lemma {:induction false} TrailSize(net: Net, best: Best, walk: seq<nat>, n: nat) returns (seen: set<string>)
    requires Trail(net, best, walk) && n <= |walk|
    ensures |seen| == n + 1 && seen <= Zones(net)
    ensures forall zone :: zone in seen ==> exists i :: 0 <= i <= n && End(net, walk[..i]) == Some(zone)
  {
    assert Heard(net, best, walk[..n]);
    EndInZones(net, walk[..n]);
    var zone := End(net, walk[..n]).value;
    if n == 0 {
      seen := {zone};
    } else {
      seen := TrailSize(net, best, walk, n - 1);
      forall y | y in seen ensures y != zone {
        var i :| 0 <= i <= n - 1 && End(net, walk[..i]) == Some(y);
        assert Apart(net, walk[..i], walk[..n]);
      }
      seen := seen + {zone};
    }
  }

  lemma ShortWalks(net: Net, best: Best, e: Entry, walk: seq<nat>)
    requires EntryOk(net, best, e, walk)
    ensures |walk| < |Zones(net)|
  {
    var seen := TrailSize(net, best, walk, |walk|);
    assert Zones(net) == seen + (Zones(net) - seen);
  }

  /* ---- The search itself ---- */

  ghost predicate Shortest(net: Net, r: real) {
    exists walk ::
      && Carries(net, net.goal, walk) && Strength(net, walk) == r
      && forall other :: Carries(net, net.goal, other) ==> |walk| <= |other|
  }

  ghost predicate OpenUpTo(net: Net, best: Best, zone: string, n: nat)
    requires n <= |net.portals|
  {
    forall j :: 0 <= j < n ==> Open1(net, best, zone, j)
  }

  lemma OneMoreOpen(net: Net, best: Best, higher: Best, zone: string, n: nat)
    requires n < |net.portals| && Raises(best, higher)
    requires OpenUpTo(net, best, zone, n) && Open1(net, higher, zone, n)
    ensures OpenUpTo(net, higher, zone, n + 1)
  {
    forall j | 0 <= j < n ensures Open1(net, higher, zone, j) {
      assert Open1(net, best, zone, j);
    }
  }

  lemma FoundShortest(net: Net, queue: seq<Entry>, walks: seq<seq<nat>>, best: Best, n: nat,
                      zone: string, walk: seq<nat>, i: nat)
    requires Inv(net, queue, walks, best, |walk|, n, {zone}) && zone in best && net.goal != net.start
    requires Carries(net, net.goal, walk + [i])
    ensures Shortest(net, Strength(net, walk + [i]))
  {
    GoalBeyond(net, queue, walks, best, |walk|, n, zone);
  }

  // The strength with which the entry carries through one portal.
  method Candidate(net: Net, e: Entry, i: nat, ghost walk: seq<nat>) returns (candidate: real)
    requires ValidPortals(net.portals) && i < |net.portals| && Touches(net.portals[i], e.zone)
    requires Carries(net, e.zone, walk) && Strength(net, walk) == e.strength
    ensures End(net, walk + [i]) == Some(Across(net.portals[i], e.zone))
    ensures 0.0 <= candidate == Strength(net, walk + [i]) <= 1.0
    ensures candidate == 0.0 ==> Factor(net, i) == 0.0
  {
    candidate := e.strength * Base(net.portals[i], net.modality);
    Extend(net, walk, i, e.zone);
    StrengthRange(net, walk + [i]);
  }

  // Tries one portal from one zone: passed over, entered, or leading to the goal.
  method TryPortal(net: Net, e: Entry, i: nat, queue: seq<Entry>, best: Best,
                   ghost walk: seq<nat>, ghost walks: seq<seq<nat>>, ghost n: nat)
    returns (found: Option<real>, queue1: seq<Entry>, best1: Best, ghost walks1: seq<seq<nat>>)
    requires ValidPortals(net.portals) && i < |net.portals|
    requires Inv(net, queue, walks, best, |walk|, n, {e.zone})
    requires EntryOk(net, best, e, walk)
    ensures found.Some? ==> net.start != net.goal && found.value > 0.0 && Shortest(net, found.value)
    ensures found.None? ==>
              && Inv(net, queue1, walks1, best1, |walk|, n, {e.zone})
              && EntryOk(net, best1, e, walk) && Raises(best, best1) && Open1(net, best1, e.zone, i)
  {
    found, queue1, best1, walks1 := None, queue, best, walks;
    if !Touches(net.portals[i], e.zone) { return; }
    var next := Across(net.portals[i], e.zone);
    var candidate := Candidate(net, e, i, walk);
    if candidate <= Known(best, next) { return; }
    if next == net.goal {
      EntryZoneKnown(net, best, e, walk);
      FoundShortest(net, queue, walks, best, n, e.zone, walk, i);
      found := Some(candidate);
      return;
    }
    PushKeeps(net, queue, walks, best, |walk|, n, {e.zone}, e, walk, i, next, candidate);
    best1 := best[next := candidate];
    queue1 := queue + [Entry(next, candidate)];
    walks1 := walks + [walk + [i]];
  }

  lemma AllOpen(net: Net, queue: seq<Entry>, walks: seq<seq<nat>>, best: Best, n: nat, e: Entry, walk: seq<nat>)
    requires Inv(net, queue, walks, best, |walk|, n, {e.zone}) && EntryOk(net, best, e, walk)
    requires OpenUpTo(net, best, e.zone, |net.portals|)
    ensures Inv(net, queue, walks, best, |walk|, n, {})
  {
    EntryZoneKnown(net, best, e, walk);
    SpreadDone(net, queue, walks, best, |walk|, n, e.zone);
  }

  // Tries every portal from one zone; returns early when the goal is entered.
  method Relay(net: Net, e: Entry, queue: seq<Entry>, best: Best,
               ghost walk: seq<nat>, ghost walks: seq<seq<nat>>, ghost n: nat)
    returns (found: Option<real>, queue1: seq<Entry>, best1: Best, ghost walks1: seq<seq<nat>>)
    requires ValidPortals(net.portals)
    requires Inv(net, queue, walks, best, |walk|, n, {e.zone})
    requires EntryOk(net, best, e, walk)
    ensures found.Some? ==> net.start != net.goal && found.value > 0.0 && Shortest(net, found.value)
    ensures found.None? ==> Inv(net, queue1, walks1, best1, |walk|, n, {})
  {
    queue1, best1, walks1 := queue, best, walks;
    var i := 0;
    while i < |net.portals|
      invariant 0 <= i <= |net.portals|
      invariant Inv(net, queue1, walks1, best1, |walk|, n, {e.zone})
      invariant EntryOk(net, best1, e, walk)
      invariant OpenUpTo(net, best1, e.zone, i)
    {
      ghost var before := best1;
      found, queue1, best1, walks1 := TryPortal(net, e, i, queue1, best1, walk, walks1, n);
      if found.Some? { return; }
      OneMoreOpen(net, before, best1, e.zone, i);
      i := i + 1;
    }
    AllOpen(net, queue1, walks1, best1, n, e, walk);
    found := None;
  }

  lemma StartInv(net: Net)
    ensures Inv(net, [Entry(net.start, 1.0)], [[]], map[net.start := 1.0], 0, 1, {})
  {
    var queue, walks: seq<seq<nat>>, best := [Entry(net.start, 1.0)], [[]], map[net.start := 1.0];
    assert walks[0][..0] == [];
    assert EntryOk(net, best, queue[0], walks[0]);
    assert queue[0].zone == net.start;
    assert Waiting(queue, 1, net.start);
    forall zone | Within(net, zone, 0) ensures zone == net.start {
    }
  }

  lemma ShortestGives(net: Net, r: real)
    requires ValidPortals(net.portals) && Shortest(net, r)
    ensures exists walk :: Gives(net, net.goal, walk, r)
  {
    var walk :| Carries(net, net.goal, walk) && Strength(net, walk) == r;
    StrengthGives(net, net.goal, walk);
  }

  /**
    The search always ends. Between different zones the result is zero exactly when no walk of
    positive transmission joins them, and otherwise the product along some walk with the fewest
    portals, at most a fifth for each portal on it that is closed or locked. From a zone to itself it is zero.
   */
  method ZoneTransmission(start: string, goal: string, portals: seq<Portal>, modality: Modality) returns (r: real)
    requires ValidPortals(portals)
    ensures start == goal ==> r == 0.0
    ensures start != goal ==>
              var net := Net(portals, modality, start, goal);
              && (r == 0.0 <==> !exists walk :: Carries(net, goal, walk))
              && (r != 0.0 ==> Shortest(net, r) && exists walk :: Gives(net, goal, walk, r))
  {
    var net := Net(portals, modality, start, goal);
    var queue := [Entry(start, 1.0)];
    var best: Best := map[start := 1.0];
    ghost var walks: seq<seq<nat>> := [[]];
    ghost var hop: nat, n: nat := 0, 1;
    StartInv(net);
    while queue != []
      invariant Inv(net, queue, walks, best, hop, n, {})
      decreases |Zones(net)| - hop, n
    {
      ShortWalks(net, best, queue[0], walks[0]);
      if n == 0 {
        NextLayer(net, queue, walks, best, hop);
        hop, n := hop + 1, |queue|;
      }
      PopKeeps(net, queue, walks, best, hop, n);
      var e := queue[0];
      ghost var walk := walks[0];
      n := n - 1;
      var found;
      found, queue, best, walks := Relay(net, e, queue[1..], best, walk, walks[1..], n);
      if found.Some? {
        ShortestGives(net, found.value);
        return found.value;
      }
    }
    r := 0.0;
    forall walk | start != goal ensures !Carries(net, goal, walk) {
      if Carries(net, goal, walk) {
        AllReached(net, best, goal, walk);
      }
    }
  }

  /* ---- When the fewest portals are the loudest way ---- */

  ghost predicate Loudest(net: Net, r: real) {
    forall walk :: Carries(net, net.goal, walk) ==> Strength(net, walk) <= r
  }

  // All portals through which anything carries have one transmission.
  ghost predicate OneFactor(net: Net, f: real) {
    forall i :: 0 <= i < |net.portals| && Factor(net, i) > 0.0 ==> Factor(net, i) == f
  }

  function Power(f: real, n: nat): real {
    if n == 0 then 1.0 else Power(f, n - 1) * f
  }

  lemma {:induction false} PowerFades(f: real, m: nat, n: nat)
    requires 0.0 <= f <= 1.0 && m <= n
    ensures 0.0 <= Power(f, n) <= Power(f, m)
    decreases n
  {
    if m < n {
      PowerFades(f, m, n - 1);
      Fades(Power(f, n - 1), f, Power(f, n));
    } else if n > 0 {
      PowerFades(f, m - 1, n - 1);
      Fades(Power(f, n - 1), f, Power(f, n));
    }
  }

  lemma {:induction false} OneFactorStrength(net: Net, f: real, zone: string, walk: seq<nat>)
    requires ValidPortals(net.portals) && OneFactor(net, f) && Carries(net, zone, walk)
    ensures Strength(net, walk) == Power(f, |walk|)
    decreases |walk|
  {
    if walk == [] {
      assert Factors(net, walk) == [];
    } else {
      var front, last := walk[..|walk| - 1], walk[|walk| - 1];
      assert walk == front + [last];
      StrengthSnoc(net, front, last);
      StrengthRange(net, front);
      FactorRange(net, last);
      PositiveParts(net, walk);
      assert Carries(net, End(net, front).value, front);
      OneFactorStrength(net, f, End(net, front).value, front);
    }
  }

  /** With a single transmission factor the fewest portals are the loudest way. */
  lemma EqualFactorsAreLoudest(net: Net, f: real, r: real)
    requires ValidPortals(net.portals) && 0.0 <= f <= 1.0 && OneFactor(net, f) && Shortest(net, r)
    ensures Loudest(net, r)
  {
    var best :| Carries(net, net.goal, best) && Strength(net, best) == r
                && forall other :: Carries(net, net.goal, other) ==> |best| <= |other|;
    OneFactorStrength(net, f, net.goal, best);
    forall walk | Carries(net, net.goal, walk) ensures Strength(net, walk) <= r {
      OneFactorStrength(net, f, net.goal, walk);
      PowerFades(f, |best|, |walk|);
    }
  }

  // A bound on what can arrive in each zone that no portal breaks.
  ghost predicate Caps(net: Net, cap: string -> real) {
    && cap(net.start) >= 1.0
    && forall i, zone :: 0 <= i < |net.portals| && Touches(net.portals[i], zone) ==> PortalKeeps(net, cap, i, zone)
  }

  predicate PortalKeeps(net: Net, cap: string -> real, i: nat, zone: string)
    requires i < |net.portals|
  {
    cap(zone) * Factor(net, i) <= cap(Across(net.portals[i], zone))
  }

  lemma CarriedOn(strength: real, cap: real, f: real, next: real)
    requires 0.0 <= strength <= cap && 0.0 <= f <= 1.0 && cap * f <= next
    ensures strength * f <= next
  {
    Times(strength, cap, f);
  }

  lemma LastStep(net: Net, walk: seq<nat>, zone: string)
    requires walk != [] && End(net, walk) == Some(zone)
    ensures var front, last := walk[..|walk| - 1], walk[|walk| - 1];
            && walk == front + [last] && End(net, front).Some? && last < |net.portals|
            && Touches(net.portals[last], End(net, front).value)
            && zone == Across(net.portals[last], End(net, front).value)
  {
  }

  /** No walk of any length brings more into a zone than such a bound allows. */
  lemma {:induction false} CapsHold(net: Net, cap: string -> real, zone: string, walk: seq<nat>)
    requires ValidPortals(net.portals) && Caps(net, cap) && End(net, walk) == Some(zone)
    ensures Strength(net, walk) <= cap(zone)
    decreases |walk|
  {
    if walk == [] {
      assert Factors(net, walk) == [];
    } else {
      var front, last := walk[..|walk| - 1], walk[|walk| - 1];
      LastStep(net, walk, zone);
      var from := End(net, front).value;
      CapsHold(net, cap, from, front);
      StrengthRange(net, front);
      FactorRange(net, last);
      assert PortalKeeps(net, cap, last, from);
      CarriedOn(Strength(net, front), cap(from), Factor(net, last), cap(zone));
      StrengthSnoc(net, front, last);
    }
  }

  // A direct portal beside a way round over two others.
  function Detour(a: real, b: real, c: real): Net {
    Net([Portal("hall", "vault", Open, a, a), Portal("hall", "stairs", Open, b, b),
         Portal("stairs", "vault", Open, c, c)],
        Sound, "hall", "vault")
  }

  predicate Fraction(x: real) {
    0.0 < x <= 1.0
  }

  lemma DetourWalks(a: real, b: real, c: real)
    requires Fraction(a) && Fraction(b) && Fraction(c)
    ensures Carries(Detour(a, b, c), "vault", [0]) && Strength(Detour(a, b, c), [0]) == a
    ensures Carries(Detour(a, b, c), "vault", [1, 2]) && Strength(Detour(a, b, c), [1, 2]) == b * c
  {
    var net := Detour(a, b, c);
    assert [0][..0] == [] && [1, 2][..1] == [1] && [1][..0] == [];
    assert End(net, [1]) == Some("stairs");
    assert Factors(net, [0]) == [a] && Factors(net, [1, 2]) == [b, c];
    assert [a][..0] == [] && [b, c][..1] == [b] && [b][..0] == [];
    assert Product([a]) == a && Product([b]) == b && Product([b, c]) == b * c;
  }

  lemma DirectWalk(a: real, b: real, c: real, walk: seq<nat>)
    requires Carries(Detour(a, b, c), "vault", walk) && |walk| <= 1
    ensures walk == [0]
  {
    assert walk != [];
    assert walk == [walk[0]] && [walk[0]][..0] == [];
    assert End(Detour(a, b, c), []) == Some("hall");
  }

  // The most any walk can bring into each zone.
  function Cap(a: real, b: real, c: real, zone: string): real {
    if zone == "hall" then 1.0 else if zone == "stairs" then (if b < a * c then a * c else b) else a
  }

  lemma Times(x: real, y: real, f: real)
    requires 0.0 <= x <= y && 0.0 <= f <= 1.0
    ensures 0.0 <= x * f <= y * f <= y
  {
    assert (y - x) * f >= 0.0;
    assert y * (1.0 - f) >= 0.0;
    assert x * f >= 0.0;
  }

  lemma DetourFactors(a: real, b: real, c: real, i: nat)
    requires i < 3
    ensures Factor(Detour(a, b, c), i) == if i == 0 then a else if i == 1 then b else c
  {
  }

  lemma StairsCap(a: real, b: real, c: real)
    requires Fraction(a) && Fraction(b) && Fraction(c)
    ensures 0.0 < Cap(a, b, c, "stairs") <= 1.0 && b <= Cap(a, b, c, "stairs") && a * c <= Cap(a, b, c, "stairs")
    ensures b * c <= a ==> Cap(a, b, c, "stairs") * c <= a
  {
    Times(a, 1.0, c);
    Times(a * c, a, c);
  }

  // A portal carries no more than the cap of the zone it leads to: the direct one, the first leg, the second leg.
  lemma CapDirect(a: real, b: real, c: real, zone: string)
    requires Fraction(a) && Fraction(b) && Fraction(c) && Touches(Detour(a, b, c).portals[0], zone)
    ensures Cap(a, b, c, zone) * a <= Cap(a, b, c, Across(Detour(a, b, c).portals[0], zone))
  {
    Times(a, 1.0, a);
  }

  lemma CapFirstLeg(a: real, b: real, c: real, zone: string)
    requires Fraction(a) && Fraction(b) && Fraction(c) && Touches(Detour(a, b, c).portals[1], zone)
    ensures Cap(a, b, c, zone) * b <= Cap(a, b, c, Across(Detour(a, b, c).portals[1], zone))
  {
    StairsCap(a, b, c);
    Times(Cap(a, b, c, "stairs"), 1.0, b);
  }

  lemma CapSecondLeg(a: real, b: real, c: real, zone: string)
    requires Fraction(a) && Fraction(b) && Fraction(c) && b * c <= a && Touches(Detour(a, b, c).portals[2], zone)
    ensures Cap(a, b, c, zone) * c <= Cap(a, b, c, Across(Detour(a, b, c).portals[2], zone))
  {
    StairsCap(a, b, c);
  }

  lemma CapStep(a: real, b: real, c: real, zone: string, i: nat)
    requires Fraction(a) && Fraction(b) && Fraction(c) && b * c <= a && i < 3
    requires Touches(Detour(a, b, c).portals[i], zone)
    ensures Cap(a, b, c, zone) * Factor(Detour(a, b, c), i) <= Cap(a, b, c, Across(Detour(a, b, c).portals[i], zone))
  {
    DetourFactors(a, b, c, i);
    if i == 0 {
      CapDirect(a, b, c, zone);
    } else if i == 1 {
      CapFirstLeg(a, b, c, zone);
    } else {
      CapSecondLeg(a, b, c, zone);
    }
  }

  lemma DetourCaps(a: real, b: real, c: real)
    requires Fraction(a) && Fraction(b) && Fraction(c) && b * c <= a
    ensures Caps(Detour(a, b, c), zone => Cap(a, b, c, zone))
  {
    var net, cap := Detour(a, b, c), (zone: string) => Cap(a, b, c, zone);
    forall i, zone | 0 <= i < |net.portals| && Touches(net.portals[i], zone) ensures PortalKeeps(net, cap, i, zone) {
      CapStep(a, b, c, zone, i);
    }
  }

  lemma ShortestDetour(a: real, b: real, c: real, r: real)
    requires Fraction(a) && Fraction(b) && Fraction(c)
    ensures Shortest(Detour(a, b, c), r) <==> r == a
  {
    var net := Detour(a, b, c);
    DetourWalks(a, b, c);
    if Shortest(net, r) {
      var walk :| Carries(net, net.goal, walk) && Strength(net, walk) == r
                  && forall other :: Carries(net, net.goal, other) ==> |walk| <= |other|;
      assert |walk| <= |[0]|;
      DirectWalk(a, b, c, walk);
    }
    forall other | Carries(net, net.goal, other) ensures |[0]| <= |other| {
      assert other != [] by { assert End(net, []) == Some("hall"); }
    }
  }

  /**
   * The fewest portals are not always the loudest way. Beside a direct portal of transmission a and a way round over b
   * and c, the result is always a, and it is the loudest if and only if b * c <= a.
   */
  lemma DetourIsLoudestIff(a: real, b: real, c: real, r: real)
    requires Fraction(a) && Fraction(b) && Fraction(c) && Shortest(Detour(a, b, c), r)
    ensures r == a && (Loudest(Detour(a, b, c), r) <==> b * c <= a)
  {
    var net := Detour(a, b, c);
    ShortestDetour(a, b, c, r);
    DetourWalks(a, b, c);
    if b * c <= a {
      DetourCaps(a, b, c);
      forall walk | Carries(net, net.goal, walk) ensures Strength(net, walk) <= r {
        CapsHold(net, zone => Cap(a, b, c, zone), net.goal, walk);
      }
    }
  }

  /** A hall, a weak portal to the vault, and two strong ones over the stairs. */
  lemma ShortestIsNotLoudest(r: real)
    requires Shortest(Detour(0.1, 0.9, 0.9), r)
    ensures r == 0.1 && !Loudest(Detour(0.1, 0.9, 0.9), r)
  {
    DetourIsLoudestIff(0.1, 0.9, 0.9, r);
  }

  // A single portal between two zones.
  function Door(state: PortalState, sight: real, sound: real, modality: Modality): Net {
    Net([Portal("hall", "cellar", state, sight, sound)], modality, "hall", "cellar")
  }

  lemma ThroughTheDoor(net: Net)
    requires |net.portals| == 1 && net.start == "hall" && net.goal == "cellar"
    requires net.portals[0].fromZone == "hall" && net.portals[0].toZone == "cellar"
    ensures End(net, []) == Some("hall") && End(net, [0]) == Some("cellar")
    ensures Strength(net, [0]) == Factor(net, 0)
  {
    assert [0][..0] == [] && [] + [0] == [0] && Factors(net, []) == [];
    StrengthSnoc(net, [], 0);
  }

  lemma OneStepIsTheDoor(net: Net, walk: seq<nat>)
    requires |net.portals| == 1 && net.start != net.goal && |walk| <= 1 && End(net, walk) == Some(net.goal)
    ensures walk == [0]
  {
    EndInside(net, walk);
  }

  /** A door between a hall and a cellar that carries sound at all lets a fifth of it through unless it is open. */
  lemma ShutDoor(state: PortalState, sight: real, sound: real, r: real)
    requires 0.0 <= sight <= 1.0 && 0.0 < sound <= 1.0 && Shortest(Door(state, sight, sound, Sound), r)
    ensures r == if state == Open then sound else sound / 5.0
  {
    var net := Door(state, sight, sound, Sound);
    var walk :| Carries(net, net.goal, walk) && Strength(net, walk) == r
                && forall other :: Carries(net, net.goal, other) ==> |walk| <= |other|;
    ThroughTheDoor(net);
    assert Carries(net, net.goal, [0]);
    assert |walk| <= |[0]|;
    OneStepIsTheDoor(net, walk);
  }
}
