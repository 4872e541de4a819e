/** The grid walk between two cell centres, and the cells whose open unit square the segment crosses. */
module GridLine {

  datatype Cell = Cell(x: int, y: int)

  function Abs(n: int): nat { if n < 0 then -n else n }

  function Sign(n: int): int { if n > 0 then 1 else -1 }

  /* ---- The walk, counted in steps taken along each axis ---- */

  lemma NoOvershoot(nx: nat, ny: nat, ix: nat, iy: nat)
    requires ix <= nx && iy <= ny && (ix < nx || iy < ny)
    ensures ix == nx ==> (1 + 2 * ix) * ny > (1 + 2 * iy) * nx
    ensures iy == ny ==> (1 + 2 * ix) * ny < (1 + 2 * iy) * nx
  {
    if ix == nx {
      assert (1 + 2 * iy) * nx <= (2 * ny - 1) * nx;
      assert (2 * ny - 1) * nx == 2 * (nx * ny) - nx;
      assert (1 + 2 * nx) * ny == 2 * (nx * ny) + ny;
    }
    if iy == ny {
      assert (1 + 2 * ix) * ny <= (2 * nx - 1) * ny;
      assert (2 * nx - 1) * ny == 2 * (nx * ny) - ny;
      assert (1 + 2 * ny) * nx == 2 * (nx * ny) + nx;
    }
  }

  // The next pair of step counts: across a corner, across a vertical edge, or across a horizontal one.
  function Advance(nx: nat, ny: nat, ix: nat, iy: nat): (next: (nat, nat))
    requires ix <= nx && iy <= ny && (ix < nx || iy < ny)
    ensures ix <= next.0 <= ix + 1 && iy <= next.1 <= iy + 1 && next != (ix, iy)
    ensures next.0 <= nx && next.1 <= ny
  {
    NoOvershoot(nx, ny, ix, iy);
    var left := (1 + 2 * ix) * ny;
    var right := (1 + 2 * iy) * nx;
    if left == right then (ix + 1, iy + 1)
    else if left < right then (ix + 1, iy)
    else (ix, iy + 1)
  }

  function Walk(nx: nat, ny: nat, ix: nat, iy: nat): (steps: seq<(nat, nat)>)
    requires ix <= nx && iy <= ny
    ensures steps != [] && steps[0] == (ix, iy)
    decreases nx - ix + ny - iy
  {
    [(ix, iy)] +
    if ix < nx || iy < ny then
      var next := Advance(nx, ny, ix, iy);
      Walk(nx, ny, next.0, next.1)
    else []
  }

  // The coordinate n unit steps from one end toward the other.
  function Toward(from: int, to: int, n: nat): int {
    if to > from then from + n else from - n
  }

  function Place(a: Cell, b: Cell, steps: (nat, nat)): Cell {
    Cell(Toward(a.x, b.x, steps.0), Toward(a.y, b.y, steps.1))
  }

  function Offsets(a: Cell, b: Cell): (steps: seq<(nat, nat)>) {
    Walk(Abs(b.x - a.x), Abs(b.y - a.y), 0, 0)
  }

  function Placed(a: Cell, b: Cell, w: seq<(nat, nat)>): (cells: seq<Cell>) {
    seq(|w|, i requires 0 <= i < |w| => Place(a, b, w[i]))
  }

  // The cells visited going from a to b.
  function Line(a: Cell, b: Cell): seq<Cell> {
    Placed(a, b, Offsets(a, b))
  }

  lemma PlacedSnoc(a: Cell, b: Cell, w: seq<(nat, nat)>, next: (nat, nat))
    ensures Placed(a, b, w + [next]) == Placed(a, b, w) + [Place(a, b, next)]
  {
  }

  lemma WalkTail(nx: nat, ny: nat, ix: nat, iy: nat, taken: seq<(nat, nat)>)
    requires ix <= nx && iy <= ny && (ix < nx || iy < ny)
    ensures var next := Advance(nx, ny, ix, iy);
            taken + Walk(nx, ny, ix, iy)[1..] == taken + [next] + Walk(nx, ny, next.0, next.1)[1..]
  {
    var next := Advance(nx, ny, ix, iy);
    var rest := Walk(nx, ny, next.0, next.1);
    assert Walk(nx, ny, ix, iy) == [(ix, iy)] + rest;
    assert rest == [next] + rest[1..];
  }

  /** The loop of the grid walk yields exactly the line. */
  method Supercover(x0: int, y0: int, x1: int, y1: int) returns (points: seq<Cell>)
    ensures points == Line(Cell(x0, y0), Cell(x1, y1))
  {
    ghost var a := Cell(x0, y0);
    ghost var b := Cell(x1, y1);
    var dx, dy := x1 - x0, y1 - y0;
    var nx: nat, ny: nat := Abs(dx), Abs(dy);
    var signX, signY := Sign(dx), Sign(dy);
    var pointX, pointY := x0, y0;
    var ix: nat, iy: nat := 0, 0;
    points := [Cell(pointX, pointY)];
    ghost var taken: seq<(nat, nat)> := [(0, 0)];
    assert Walk(nx, ny, 0, 0) == taken + Walk(nx, ny, 0, 0)[1..];
    while ix < nx || iy < ny
      invariant ix <= nx && iy <= ny
      invariant Cell(pointX, pointY) == Place(a, b, (ix, iy))
      invariant taken + Walk(nx, ny, ix, iy)[1..] == Offsets(a, b)
      invariant points == Placed(a, b, taken)
      decreases nx - ix + ny - iy
    {
      ghost var next := Advance(nx, ny, ix, iy);
      WalkTail(nx, ny, ix, iy, taken);
      var left := (1 + 2 * ix) * ny;
      var right := (1 + 2 * iy) * nx;
      if left == right {
        pointX, pointY := pointX + signX, pointY + signY;
        ix, iy := ix + 1, iy + 1;
      } else if left < right {
        pointX := pointX + signX;
        ix := ix + 1;
      } else {
        pointY := pointY + signY;
        iy := iy + 1;
      }
      assert next == (ix, iy);
      PlacedSnoc(a, b, taken, next);
      taken := taken + [next];
      points := points + [Cell(pointX, pointY)];
    }
    assert Walk(nx, ny, ix, iy)[1..] == [];
  }

  /* ---- Shape of the walk ---- */

  ghost predicate KingStep(a: (nat, nat), b: (nat, nat)) {
    a.0 <= b.0 <= a.0 + 1 && a.1 <= b.1 <= a.1 + 1 && a != b
  }

  lemma {:induction false} WalkShape(nx: nat, ny: nat, ix: nat, iy: nat)
    requires ix <= nx && iy <= ny
    ensures var w := Walk(nx, ny, ix, iy);
            && w[|w| - 1] == (nx, ny)
            && (forall i :: 0 <= i < |w| ==> ix <= w[i].0 <= nx && iy <= w[i].1 <= ny)
            && (forall i :: 0 <= i < |w| - 1 ==> KingStep(w[i], w[i + 1]))
            && (forall i, j :: 0 <= i < j < |w| ==> w[i].0 + w[i].1 < w[j].0 + w[j].1)
    decreases nx - ix + ny - iy
  {
    if ix < nx || iy < ny {
      var next := Advance(nx, ny, ix, iy);
      WalkShape(nx, ny, next.0, next.1);
      var rest := Walk(nx, ny, next.0, next.1);
      var w := Walk(nx, ny, ix, iy);
      assert w == [(ix, iy)] + rest;
      forall i | 0 <= i < |w| - 1 ensures KingStep(w[i], w[i + 1]) {
        if i > 0 { assert KingStep(rest[i - 1], rest[i]); }
      }
    }
  }

  /* ---- Which step counts name crossed squares ---- */

  // The intervals in which the segment is within half a cell of column a and of row b overlap.
  ghost predicate Crossed(nx: nat, ny: nat, a: int, b: int) {
    && 0 <= a <= nx && 0 <= b <= ny
    && (2 * a - 1) * ny < (2 * b + 1) * nx
    && (2 * b - 1) * nx < (2 * a + 1) * ny
  }

  lemma ScaleLeq(a: int, b: int, n: nat)
    requires a <= b
    ensures a * n <= b * n
  {
  }

  lemma AdvanceCrossed(nx: nat, ny: nat, ix: nat, iy: nat)
    requires ix <= nx && iy <= ny && (ix < nx || iy < ny) && Crossed(nx, ny, ix, iy)
    ensures var next := Advance(nx, ny, ix, iy); Crossed(nx, ny, next.0, next.1)
  {
    var left := (1 + 2 * ix) * ny;
    var right := (1 + 2 * iy) * nx;
    assert (2 * (ix + 1) - 1) * ny == left && (2 * (iy + 1) - 1) * nx == right;
    assert (2 * (ix + 1) + 1) * ny == left + 2 * ny && (2 * (iy + 1) + 1) * nx == right + 2 * nx;
    assert (2 * ix + 1) * ny == left && (2 * iy + 1) * nx == right;
    if left == right {
      assert nx > 0 && ny > 0;
    }
  }

  // Whatever crossed square lies ahead of the current one lies ahead of the next one too.
  lemma AdvanceSkipsNothing(nx: nat, ny: nat, ix: nat, iy: nat, a: int, b: int)
    requires ix <= nx && iy <= ny && (ix < nx || iy < ny)
    requires Crossed(nx, ny, a, b) && ix <= a && iy <= b && (a, b) != (ix, iy)
    ensures var next := Advance(nx, ny, ix, iy); next.0 <= a && next.1 <= b
  {
    var left := (1 + 2 * ix) * ny;
    var right := (1 + 2 * iy) * nx;
    if a == ix {
      ScaleLeq(2 * iy + 1, 2 * b - 1, nx);
      assert right < left;
    } else if b == iy {
      ScaleLeq(2 * ix + 1, 2 * a - 1, ny);
      assert left < right;
    }
  }

  ghost predicate Visits(w: seq<(nat, nat)>, a: int, b: int) {
    exists i :: 0 <= i < |w| && w[i].0 == a && w[i].1 == b
  }

  /** The walk visits exactly the crossed squares that lie ahead. */
  lemma {:induction false} WalkExact(nx: nat, ny: nat, ix: nat, iy: nat, a: int, b: int)
    requires ix <= nx && iy <= ny && Crossed(nx, ny, ix, iy)
    ensures Visits(Walk(nx, ny, ix, iy), a, b) <==> Crossed(nx, ny, a, b) && ix <= a && iy <= b
    decreases nx - ix + ny - iy
  {
    var w := Walk(nx, ny, ix, iy);
    if ix < nx || iy < ny {
      var next := Advance(nx, ny, ix, iy);
      var rest := Walk(nx, ny, next.0, next.1);
      assert w == [(ix, iy)] + rest;
      AdvanceCrossed(nx, ny, ix, iy);
      WalkExact(nx, ny, next.0, next.1, a, b);
      if Visits(w, a, b) && (a, b) != (ix, iy) {
        var i :| 0 <= i < |w| && w[i].0 == a && w[i].1 == b;
        assert rest[i - 1] == w[i];
      }
      if Crossed(nx, ny, a, b) && ix <= a && iy <= b {
        if (a, b) == (ix, iy) {
          assert w[0].0 == a && w[0].1 == b;
        } else {
          AdvanceSkipsNothing(nx, ny, ix, iy, a, b);
          var i :| 0 <= i < |rest| && rest[i].0 == a && rest[i].1 == b;
          assert w[i + 1] == rest[i];
        }
      }
    } else {
      assert w == [(ix, iy)];
      assert w[0].0 == nx && w[0].1 == ny;
    }
  }

  /* ---- The segment itself, over the reals ---- */

  ghost predicate Within(p: real, centre: int) {
    centre as real - 0.5 < p < centre as real + 0.5
  }

  // At parameter t the segment from a to b is inside the open unit square of c.
  ghost predicate Inside(a: Cell, b: Cell, c: Cell, t: real) {
    && 0.0 <= t <= 1.0
    && Within(a.x as real + t * (b.x - a.x) as real, c.x)
    && Within(a.y as real + t * (b.y - a.y) as real, c.y)
  }

  ghost predicate Crosses(a: Cell, b: Cell, c: Cell) {
    exists t :: Inside(a, b, c, t)
  }

  // Column (or row) number counted from one end in the direction of the other.
  function Count(from: int, to: int, at: int): int {
    if to > from then at - from else from - at
  }

  lemma WithinCount(from: int, to: int, at: int, t: real)
    ensures Within(from as real + t * (to - from) as real, at)
       <==> Within(t * Abs(to - from) as real, Count(from, to, at))
  {
    if to > from {
    } else {
      assert (to - from) as real == -(Abs(to - from) as real);
      assert t * (to - from) as real == -(t * Abs(to - from) as real);
    }
  }

  lemma WithinBounds(n: nat, k: int, t: real)
    requires 0.0 <= t <= 1.0 && Within(t * n as real, k)
    ensures 0 <= k <= n
  {
    assert 0.0 <= t * n as real <= n as real;
  }

  // If both coordinates are near at the same t, the two open intervals of parameters overlap.
  lemma NearOverlaps(nx: nat, ny: nat, a: int, b: int, t: real)
    requires nx + ny > 0 && Within(t * nx as real, a) && Within(t * ny as real, b)
    ensures (2 * a - 1) * ny < (2 * b + 1) * nx
  {
    var x, y, r, u := nx as real, ny as real, a as real - 0.5, b as real + 0.5;
    assert r * y <= (t * x) * y && (ny > 0 ==> r * y < (t * x) * y);
    assert (t * y) * x <= u * x && (nx > 0 ==> (t * y) * x < u * x);
    assert (t * x) * y == (t * y) * x;
    assert r * y < u * x;
    assert 2.0 * r == (2 * a - 1) as real && 2.0 * u == (2 * b + 1) as real;
    assert (2.0 * r) * y == 2.0 * (r * y) && (2.0 * u) * x == 2.0 * (u * x);
    assert ((2 * a - 1) * ny) as real == (2 * a - 1) as real * y;
    assert ((2 * b + 1) * nx) as real == (2 * b + 1) as real * x;
  }

  function Max(a: real, b: real): real { if a < b then b else a }

  function Min(a: real, b: real): real { if a < b then a else b }

  lemma QuotientLess(p: real, q: real, r: real, s: real)
    requires q > 0.0 && s > 0.0 && p * s < r * q
    ensures p / q < r / s
  {
    var u, v := p / q, r / s;
    assert u * q == p && v * s == r;
    assert p * s == u * (q * s) && r * q == v * (q * s);
    assert (v - u) * (q * s) == v * (q * s) - u * (q * s);
    assert q * s > 0.0;
  }

  lemma QuotientTimes(p: real, q: real, t: real)
    requires q > 0.0
    ensures p / q < t ==> p < t * q
    ensures t < p / q ==> t * q < p
  {
    var u := p / q;
    assert u * q == p;
    assert (t - u) * q == t * q - u * q;
  }

  // Two overlapping open intervals that both meet [0, 1] meet it together.
  lemma MiddleOfOverlap(lowX: real, highX: real, lowY: real, highY: real) returns (t: real)
    requires lowX < 1.0 && 0.0 < highX && lowX < highX
    requires lowY < 1.0 && 0.0 < highY && lowY < highY
    requires lowX < highY && lowY < highX
    ensures 0.0 <= t <= 1.0 && lowX < t < highX && lowY < t < highY
  {
    var low := Max(0.0, Max(lowX, lowY));
    var high := Min(1.0, Min(highX, highY));
    assert low < high;
    t := (low + high) / 2.0;
  }

  lemma EdgesInReals(n: nat, m: nat, k: int, l: int)
    requires (2 * k - 1) * n < (2 * l + 1) * m
    ensures (k as real - 0.5) * n as real < (l as real + 0.5) * m as real
  {
    assert ((2 * k - 1) * n) as real == (2 * k - 1) as real * n as real;
    assert ((2 * l + 1) * m) as real == (2 * l + 1) as real * m as real;
    assert (2 * k - 1) as real == 2.0 * (k as real - 0.5);
    assert (2 * l + 1) as real == 2.0 * (l as real + 0.5);
    assert 2.0 * (k as real - 0.5) * n as real == 2.0 * ((k as real - 0.5) * n as real);
    assert 2.0 * (l as real + 0.5) * m as real == 2.0 * ((l as real + 0.5) * m as real);
  }

  // The open interval of parameters near column k, and that it meets [0, 1].
  lemma ColumnInterval(n: nat, k: int)
    requires n > 0 && 0 <= k <= n
    ensures var low, high := (k as real - 0.5) / n as real, (k as real + 0.5) / n as real;
            low < 1.0 && 0.0 < high && low < high
  {
    var x := n as real;
    QuotientLess(k as real - 0.5, x, x, x);
    QuotientLess(0.0, x, k as real + 0.5, x);
    QuotientLess(k as real - 0.5, x, k as real + 0.5, x);
    assert x / x == 1.0 && 0.0 / x == 0.0;
  }

  lemma BothMeet(nx: nat, ny: nat, a: int, b: int) returns (t: real)
    requires nx > 0 && ny > 0 && Crossed(nx, ny, a, b)
    ensures 0.0 <= t <= 1.0 && Within(t * nx as real, a) && Within(t * ny as real, b)
  {
    var x, y := nx as real, ny as real;
    var la, ha := a as real - 0.5, a as real + 0.5;
    var lb, hb := b as real - 0.5, b as real + 0.5;
    EdgesInReals(ny, nx, a, b);
    EdgesInReals(nx, ny, b, a);
    QuotientLess(la, x, hb, y);
    QuotientLess(lb, y, ha, x);
    ColumnInterval(nx, a);
    ColumnInterval(ny, b);
    t := MiddleOfOverlap(la / x, ha / x, lb / y, hb / y);
    QuotientTimes(la, x, t);
    QuotientTimes(ha, x, t);
    QuotientTimes(lb, y, t);
    QuotientTimes(hb, y, t);
  }

  lemma UnitQuotient(k: nat, n: nat) returns (t: real)
    requires n > 0 && k <= n
    ensures 0.0 <= t <= 1.0 && t * n as real == k as real
  {
    var x := n as real;
    t := k as real / x;
    assert t * x == k as real;
    assert (1.0 - t) * x == x - k as real;
  }

  lemma OverlapMeets(nx: nat, ny: nat, a: int, b: int) returns (t: real)
    requires nx + ny > 0 && Crossed(nx, ny, a, b)
    ensures 0.0 <= t <= 1.0 && Within(t * nx as real, a) && Within(t * ny as real, b)
  {
    if nx == 0 {
      t := UnitQuotient(b, ny);
    } else if ny == 0 {
      t := UnitQuotient(a, nx);
    } else {
      t := BothMeet(nx, ny, a, b);
    }
  }

  lemma InsideCounts(a: Cell, b: Cell, c: Cell, t: real)
    ensures Inside(a, b, c, t) <==>
            && 0.0 <= t <= 1.0
            && Within(t * Abs(b.x - a.x) as real, Count(a.x, b.x, c.x))
            && Within(t * Abs(b.y - a.y) as real, Count(a.y, b.y, c.y))
  {
    WithinCount(a.x, b.x, c.x, t);
    WithinCount(a.y, b.y, c.y, t);
  }

  lemma NearCrossed(nx: nat, ny: nat, i: int, j: int, t: real)
    requires nx + ny > 0 && 0.0 <= t <= 1.0 && Within(t * nx as real, i) && Within(t * ny as real, j)
    ensures Crossed(nx, ny, i, j)
  {
    WithinBounds(nx, i, t);
    WithinBounds(ny, j, t);
    NearOverlaps(nx, ny, i, j, t);
    NearOverlaps(ny, nx, j, i, t);
  }

  ghost predicate CountCrossed(a: Cell, b: Cell, c: Cell) {
    Crossed(Abs(b.x - a.x), Abs(b.y - a.y), Count(a.x, b.x, c.x), Count(a.y, b.y, c.y))
  }

  lemma InsideIsCounted(nx: nat, ny: nat, i: int, j: int, a: Cell, b: Cell, c: Cell, t: real)
    requires a != b && Inside(a, b, c, t)
    requires nx == Abs(b.x - a.x) && ny == Abs(b.y - a.y)
    requires i == Count(a.x, b.x, c.x) && j == Count(a.y, b.y, c.y)
    ensures Crossed(nx, ny, i, j)
  {
    assert nx + ny > 0;
    assert Within(t * nx as real, i) by { WithinCount(a.x, b.x, c.x, t); }
    assert Within(t * ny as real, j) by { WithinCount(a.y, b.y, c.y, t); }
    NearCrossed(nx, ny, i, j, t);
  }

  lemma CrossesIsCounted(a: Cell, b: Cell, c: Cell)
    requires a != b && Crosses(a, b, c)
    ensures CountCrossed(a, b, c)
  {
    var t :| Inside(a, b, c, t);
    InsideIsCounted(Abs(b.x - a.x), Abs(b.y - a.y), Count(a.x, b.x, c.x), Count(a.y, b.y, c.y), a, b, c, t);
  }

  lemma CountedCrosses(a: Cell, b: Cell, c: Cell)
    requires a != b && CountCrossed(a, b, c)
    ensures Crosses(a, b, c)
  {
    var t := OverlapMeets(Abs(b.x - a.x), Abs(b.y - a.y), Count(a.x, b.x, c.x), Count(a.y, b.y, c.y));
    InsideCounts(a, b, c, t);
  }

  lemma StartCrossed(nx: nat, ny: nat)
    requires nx + ny > 0
    ensures Crossed(nx, ny, 0, 0)
  {
  }

  lemma PlaceCount(a: Cell, b: Cell, steps: (nat, nat), c: Cell)
    ensures Place(a, b, steps) == c <==> steps.0 == Count(a.x, b.x, c.x) && steps.1 == Count(a.y, b.y, c.y)
  {
  }

  /** Between distinct cells the line visits exactly the cells whose open unit square the segment crosses. */
  lemma LineExact(a: Cell, b: Cell, c: Cell)
    requires a != b
    ensures c in Line(a, b) <==> Crosses(a, b, c)
  {
    var nx, ny := Abs(b.x - a.x), Abs(b.y - a.y);
    var i, j := Count(a.x, b.x, c.x), Count(a.y, b.y, c.y);
    StartCrossed(nx, ny);
    WalkExact(nx, ny, 0, 0, i, j);
    if Crosses(a, b, c) { CrossesIsCounted(a, b, c); }
    if CountCrossed(a, b, c) { CountedCrosses(a, b, c); }
    var w := Offsets(a, b);
    if c in Line(a, b) {
      var k :| 0 <= k < |w| && Line(a, b)[k] == c;
      PlaceCount(a, b, w[k], c);
    }
    if Visits(w, i, j) {
      var k :| 0 <= k < |w| && w[k].0 == i && w[k].1 == j;
      PlaceCount(a, b, w[k], c);
      assert Line(a, b)[k] == c;
    }
  }

  lemma PlaceNeighbour(a: Cell, b: Cell, s: (nat, nat), t: (nat, nat))
    requires KingStep(s, t)
    ensures Neighbours(Place(a, b, s), Place(a, b, t))
  {
  }

  ghost predicate Neighbours(c: Cell, d: Cell) {
    c != d && Abs(d.x - c.x) <= 1 && Abs(d.y - c.y) <= 1
  }

  /** The line starts at a, ends at b, and moves from each cell to one of its eight neighbours. */
  lemma LineShape(a: Cell, b: Cell)
    ensures var l := Line(a, b);
            && l != [] && l[0] == a && l[|l| - 1] == b
            && forall i :: 0 <= i < |l| - 1 ==> Neighbours(l[i], l[i + 1])
  {
    var w := Offsets(a, b);
    WalkShape(Abs(b.x - a.x), Abs(b.y - a.y), 0, 0);
    var l := Line(a, b);
    assert l[0] == Place(a, b, w[0]) && l[|l| - 1] == Place(a, b, w[|w| - 1]);
    forall i | 0 <= i < |l| - 1 ensures Neighbours(l[i], l[i + 1]) {
      assert KingStep(w[i], w[i + 1]);
      PlaceNeighbour(a, b, w[i], w[i + 1]);
    }
  }

  /* ---- Reversal ---- */

  // King-walk distance of a cell from the start, strictly growing along the line.
  function Rank(a: Cell, c: Cell): nat { Abs(c.x - a.x) + Abs(c.y - a.y) }

  ghost predicate Climbs(a: Cell, cells: seq<Cell>) {
    forall i, j :: 0 <= i < j < |cells| ==> Rank(a, cells[i]) < Rank(a, cells[j])
  }

  lemma PlaceRank(a: Cell, b: Cell, steps: (nat, nat))
    requires steps.0 <= Abs(b.x - a.x) && steps.1 <= Abs(b.y - a.y)
    ensures Rank(a, Place(a, b, steps)) == steps.0 + steps.1
    ensures Rank(b, Place(a, b, steps)) == Rank(a, b) - steps.0 - steps.1
  {
  }

  lemma LineClimbs(a: Cell, b: Cell)
    ensures Climbs(a, Line(a, b))
    ensures forall i :: 0 <= i < |Line(a, b)| ==>
                          Rank(a, Line(a, b)[i]) + Rank(b, Line(a, b)[i]) == Rank(a, b)
  {
    var w, l := Offsets(a, b), Line(a, b);
    WalkShape(Abs(b.x - a.x), Abs(b.y - a.y), 0, 0);
    forall i | 0 <= i < |l| ensures Rank(a, l[i]) + Rank(b, l[i]) == Rank(a, b) {
      PlaceRank(a, b, w[i]);
    }
    forall i, j | 0 <= i < j < |l| ensures Rank(a, l[i]) < Rank(a, l[j]) {
      PlaceRank(a, b, w[i]);
      PlaceRank(a, b, w[j]);
    }
  }

  lemma {:induction false} ClimbUnique(a: Cell, xs: seq<Cell>, ys: seq<Cell>)
    requires Climbs(a, xs) && Climbs(a, ys)
    requires forall c :: c in xs <==> c in ys
    ensures xs == ys
  {
    if xs != [] { assert xs[0] in xs; }
    if ys != [] { assert ys[0] in ys; }
    if xs != [] {
      assert xs[0] in ys && ys[0] in xs;
      var i :| 0 <= i < |ys| && ys[i] == xs[0];
      var j :| 0 <= j < |xs| && xs[j] == ys[0];
      assert xs[0] == ys[0];
      forall c ensures c in xs[1..] <==> c in ys[1..] {
        TailMember(a, xs, c);
        TailMember(a, ys, c);
      }
      ClimbUnique(a, xs[1..], ys[1..]);
      assert xs == [xs[0]] + xs[1..] && ys == [ys[0]] + ys[1..];
    }
  }

  lemma TailMember(a: Cell, xs: seq<Cell>, c: Cell)
    requires xs != [] && Climbs(a, xs)
    ensures c in xs[1..] <==> c in xs && c != xs[0]
  {
    if c in xs && c != xs[0] {
      var i :| 0 <= i < |xs| && xs[i] == c;
      assert xs[1..][i - 1] == c;
    }
    if c in xs[1..] {
      var i :| 0 <= i < |xs| - 1 && xs[1..][i] == c;
      assert xs[i + 1] == c;
    }
  }

  function Reversed(cells: seq<Cell>): (r: seq<Cell>)
    ensures |r| == |cells|
    ensures forall i :: 0 <= i < |cells| ==> r[i] == cells[|cells| - 1 - i]
    ensures forall c :: c in r <==> c in cells
  {
    if cells == [] then []
    else
      assert cells == [cells[0]] + cells[1..];
      Reversed(cells[1..]) + [cells[0]]
  }

  lemma CrossesBack(a: Cell, b: Cell, c: Cell)
    requires Crosses(a, b, c)
    ensures Crosses(b, a, c)
  {
    var t :| Inside(a, b, c, t);
    BackAxis(a.x, b.x, t);
    BackAxis(a.y, b.y, t);
    assert Inside(b, a, c, 1.0 - t);
  }

  lemma BackAxis(from: int, to: int, t: real)
    ensures from as real + t * (to - from) as real == to as real + (1.0 - t) * (from - to) as real
  {
    var d := (to - from) as real;
    assert (from - to) as real == -d;
    assert (1.0 - t) * (-d) == -d + t * d;
  }

  /** Walking back visits the same cells in reverse. */
  lemma LineReversed(a: Cell, b: Cell)
    ensures Line(b, a) == Reversed(Line(a, b))
  {
    var there, back := Line(a, b), Line(b, a);
    LineClimbs(a, b);
    LineClimbs(b, a);
    if a == b {
      assert Offsets(a, b) == [(0, 0)];
      assert there == [a] && back == [a];
    } else {
      forall c ensures c in back <==> c in Reversed(there) {
        LineExact(a, b, c);
        LineExact(b, a, c);
        if c in there { CrossesBack(a, b, c); }
        if c in back { CrossesBack(b, a, c); }
      }
      assert Climbs(b, Reversed(there));
      ClimbUnique(b, back, Reversed(there));
    }
  }
}
