/** One frame of `Mold.update` (mold.js) as a function of the mold's fields
    and its surroundings: the staggered density-check counter, the
    bounce-and-clamp move, the clamped sensor points and their pixel
    indices, the food readings and consumption, and the priority chain
    edge avoidance > dispersal > trail following. The class `Mold` in
    `MoldAgent` is proved to do exactly this. */
module MoldStep {
  import opened Common
  import opened FoodSource
  import opened Dispersal

  const RotAngle: real := 45.0
  const SensorAngle: real := 45.0
  const SensorDist: real := 10.0
  const EdgeBuffer: real := 20.0
  /** The period of the density check. */
  const CheckPeriod: int := 10

  /** The p5 functions the frame calls, as inputs: `cos`, `sin` and `atan2`
      in degrees (the sketch sets `angleMode(DEGREES)`), and `sqrt`, which
      also gives `dist(a, b) == sqrt(DistSq(a, b))`. */
  datatype Math = Math(cos: real -> real, sin: real -> real, atan2: (real, real) -> real, sqrt: real -> real) {
    // Applications behind names, so that a method's call and a function's
    // call are the same term whatever the heap.
    function Cos(a: real): real { cos(a) }
    function Sin(a: real): real { sin(a) }
    function Atan2(y: real, x: real): real { atan2(y, x) }
  }

  /** The `random` draws of one frame: the two scan start indices and the
      coin of the trail-following tie-break. */
  datatype Draws = Draws(checkStart: nat, forceStart: nat, coin: real)

  /** The fields of a mold that `update` reads or writes. */
  datatype MoldState = MoldState(x: real, y: real, heading: real, vx: real, vy: real,
                                 stop: bool, isDispersing: bool, counter: int)

  // ---------------------------------------------------------------------
  // The staggered counter

  datatype CounterTick = CounterTick(counter: int, check: bool)

  /** `dispersalCheckCounter++`, and the check with a reset once it reaches 10. */
  function CounterStep(c: int): (t: CounterTick)
    ensures 0 <= c < CheckPeriod ==> 0 <= t.counter < CheckPeriod
    ensures 0 <= c < CheckPeriod ==> (t.check <==> c == CheckPeriod - 1)
    ensures 0 <= c < CheckPeriod ==> t.counter == (c + 1) % CheckPeriod
  {
    var next := c + 1;
    if next >= CheckPeriod then CounterTick(0, true) else CounterTick(next, false)
  }

  /** The counter after `k` frames. */
  function CounterAfter(c: int, k: nat): int
  {
    if k == 0 then c else CounterStep(CounterAfter(c, k - 1)).counter
  }

  /** The number of density checks during `k` frames. */
  function ChecksIn(c: int, k: nat): nat
  {
    if k == 0 then 0
    else ChecksIn(c, k - 1) + (if CounterStep(CounterAfter(c, k - 1)).check then 1 else 0)
  }

  /** From a counter in 0..9 the check runs once every 10 frames: after `k`
      frames it has run `(c + k) / 10` times and the counter is `(c + k) % 10`. */
  lemma {:induction false} ChecksOverRun(c: int, k: nat)
    requires 0 <= c < CheckPeriod
    ensures CounterAfter(c, k) == (c + k) % CheckPeriod
    ensures ChecksIn(c, k) == (c + k) / CheckPeriod
  {
    if k > 0 {
      ChecksOverRun(c, k - 1);
    }
  }

  /** The counter step of mold.js:36-42 on the fields of `s`: when the
      counter reaches 10 the density check decides `isDispersing` at the
      mold's current position, from the scan start `start`. */
  function StaggeredCheck(s: MoldState, pop: seq<Pos>, self: nat, start: nat): (r: MoldState)
    requires self < |pop| && start < |pop|
    ensures r == s.(counter := r.counter, isDispersing := r.isDispersing)
    ensures s.counter >= CheckPeriod - 1 ==> r.counter == 0 && r.isDispersing == Dense(pop, self, start, Pos(s.x, s.y))
    ensures s.counter < CheckPeriod - 1 ==> r.counter == s.counter + 1 && r.isDispersing == s.isDispersing
    ensures r.isDispersing ==> s.isDispersing || |pop| >= MinClusterSize
  {
    var tick := CounterStep(s.counter);
    s.(counter := tick.counter,
       isDispersing := if tick.check then Dense(pop, self, start, Pos(s.x, s.y)) else s.isDispersing)
  }

  /** Any 10 consecutive frames hold exactly one check. */
  lemma OneCheckPerPeriod(c: int, k: nat)
    requires 0 <= c < CheckPeriod
    ensures ChecksIn(c, k + 10) == ChecksIn(c, k) + 1
  {
    ChecksOverRun(c, k);
    ChecksOverRun(c, k + 10);
  }

  // ---------------------------------------------------------------------
  // Moving

  datatype Moved = Moved(x: real, y: real, heading: real, vx: real, vy: real)

  /** A left/right crossing of the position `x + vx` on a canvas of width `w`. */
  predicate Crosses(v: real, w: int)
  {
    v <= 0.0 || v >= (w - 1) as real
  }

  /** The move step of mold.js:57-78 from velocity `(vx, vy)`: a crossing
      of the left or right edge reflects the heading to `180 - heading`, one
      of the top or bottom edge negates it, and either clamps the position
      into the 1-pixel inset and recomputes the velocity. */
  function Move(x: real, y: real, heading: real, vx: real, vy: real, w: int, h: int, m: Math): (r: Moved)
    ensures w >= 3 && h >= 3 ==> 0.0 < r.x < (w - 1) as real && 0.0 < r.y < (h - 1) as real
    ensures !Crosses(x + vx, w) && !Crosses(y + vy, h) ==> r == Moved(x + vx, y + vy, heading, vx, vy)
  {
    BounceY(BounceX(Moved(x + vx, y + vy, heading, vx, vy), w, m), h, m)
  }

  /** The left/right collision of mold.js:61-68 on the tentative position. */
  function BounceX(mv: Moved, w: int, m: Math): (r: Moved)
    ensures r.y == mv.y
    ensures !Crosses(mv.x, w) ==> r == mv
    ensures Crosses(mv.x, w) ==> r.heading == 180.0 - mv.heading && r.vx == m.Cos(r.heading) && r.vy == m.Sin(r.heading)
    ensures w >= 3 && Crosses(mv.x, w) ==> 1.0 <= r.x <= (w - 2) as real
  {
    if Crosses(mv.x, w) then
      var hd := 180.0 - mv.heading;
      Moved(Constrain(mv.x, 1.0, (w - 2) as real), mv.y, hd, m.Cos(hd), m.Sin(hd))
    else mv
  }

  /** The top/bottom collision of mold.js:70-75 on the tentative position. */
  function BounceY(mv: Moved, h: int, m: Math): (r: Moved)
    ensures r.x == mv.x
    ensures !Crosses(mv.y, h) ==> r == mv
    ensures Crosses(mv.y, h) ==> r.heading == -mv.heading && r.vx == m.Cos(r.heading) && r.vy == m.Sin(r.heading)
    ensures h >= 3 && Crosses(mv.y, h) ==> 1.0 <= r.y <= (h - 2) as real
  {
    if Crosses(mv.y, h) then
      var hd := -mv.heading;
      Moved(mv.x, Constrain(mv.y, 1.0, (h - 2) as real), hd, m.Cos(hd), m.Sin(hd))
    else mv
  }

  /** The move ends strictly inside the canvas, at `(x + vx, y + vy)` on each
      axis it does not cross and at the nearer inset edge on each it does. */
  lemma MoveInside(x: real, y: real, heading: real, vx: real, vy: real, w: int, h: int, m: Math)
    requires w >= 3 && h >= 3
    ensures var r := Move(x, y, heading, vx, vy, w, h, m);
            0.0 < r.x < (w - 1) as real && 0.0 < r.y < (h - 1) as real &&
            (!Crosses(x + vx, w) ==> r.x == x + vx) &&
            (!Crosses(y + vy, h) ==> r.y == y + vy) &&
            (x + vx <= 0.0 ==> r.x == 1.0) && (x + vx >= (w - 1) as real ==> r.x == (w - 2) as real) &&
            (y + vy <= 0.0 ==> r.y == 1.0) && (y + vy >= (h - 1) as real ==> r.y == (h - 2) as real)
  {
  }

  /** The heading after the move: kept without a crossing, `180 - heading`
      after a side crossing, `-heading` after a top or bottom crossing and
      `heading - 180` after both; after any crossing the velocity is that
      of the new heading. */
  lemma MoveReflects(x: real, y: real, heading: real, vx: real, vy: real, w: int, h: int, m: Math)
    ensures var r := Move(x, y, heading, vx, vy, w, h, m);
            (!Crosses(x + vx, w) && !Crosses(y + vy, h) ==> r.heading == heading && r.vx == vx && r.vy == vy) &&
            (Crosses(x + vx, w) && !Crosses(y + vy, h) ==> r.heading == 180.0 - heading) &&
            (!Crosses(x + vx, w) && Crosses(y + vy, h) ==> r.heading == -heading) &&
            (Crosses(x + vx, w) && Crosses(y + vy, h) ==> r.heading == heading - 180.0) &&
            (Crosses(x + vx, w) || Crosses(y + vy, h) ==> r.vx == m.Cos(r.heading) && r.vy == m.Sin(r.heading))
  {
  }

  /** Movement control (mold.js:44-53): a stopped mold has velocity 0,
      any other `(cos(heading), sin(heading))`. */
  function ControlMovement(s: MoldState, m: Math): (r: MoldState)
    ensures r == s.(vx := r.vx, vy := r.vy)
    ensures s.stop ==> r.vx == 0.0 && r.vy == 0.0
    ensures !s.stop ==> r.vx == m.Cos(s.heading) && r.vy == m.Sin(s.heading)
  {
    if s.stop then s.(vx := 0.0, vy := 0.0)
    else s.(vx := m.Cos(s.heading), vy := m.Sin(s.heading))
  }

  /** The move with edge collisions (mold.js:55-78) from the mold's velocity. */
  function Collide(s: MoldState, w: int, h: int, m: Math): (r: MoldState)
    ensures r.stop == s.stop && r.isDispersing == s.isDispersing && r.counter == s.counter
    ensures w >= 3 && h >= 3 ==> 0.0 < r.x < (w - 1) as real && 0.0 < r.y < (h - 1) as real
    ensures !Crosses(s.x + s.vx, w) && !Crosses(s.y + s.vy, h) ==>
              r == s.(x := s.x + s.vx, y := s.y + s.vy)
  {
    var mv := Move(s.x, s.y, s.heading, s.vx, s.vy, w, h, m);
    s.(x := mv.x, y := mv.y, heading := mv.heading, vx := mv.vx, vy := mv.vy)
  }

  /** Movement control and the move (mold.js:44-78). */
  function Advance(s: MoldState, w: int, h: int, m: Math): (r: MoldState)
    ensures r.stop == s.stop && r.isDispersing == s.isDispersing && r.counter == s.counter
    ensures w >= 3 && h >= 3 ==> 0.0 < r.x < (w - 1) as real && 0.0 < r.y < (h - 1) as real
    ensures s.stop && 0.0 < s.x < (w - 1) as real && 0.0 < s.y < (h - 1) as real ==>
              r.x == s.x && r.y == s.y && r.heading == s.heading && r.vx == 0.0 && r.vy == 0.0
  {
    Collide(ControlMovement(s, m), w, h, m)
  }

  // ---------------------------------------------------------------------
  // Sensing

  /** `getSensorPos`: the point `SensorDist` ahead along `angle`, clamped
      to the 1-pixel inset of the canvas. */
  function SensorPoint(here: Pos, angle: real, w: int, h: int, m: Math): (p: Pos)
    ensures w >= 3 ==> 1.0 <= p.x <= (w - 2) as real
    ensures h >= 3 ==> 1.0 <= p.y <= (h - 2) as real
    ensures 1.0 <= here.x + SensorDist * m.Cos(angle) <= (w - 2) as real ==> p.x == here.x + SensorDist * m.Cos(angle)
    ensures 1.0 <= here.y + SensorDist * m.Sin(angle) <= (h - 2) as real ==> p.y == here.y + SensorDist * m.Sin(angle)
  {
    Pos(Constrain(here.x + SensorDist * m.Cos(angle), 1.0, (w - 2) as real),
        Constrain(here.y + SensorDist * m.Sin(angle), 1.0, (h - 2) as real))
  }

  /** The 1-pixel inset of a canvas `w` by `h`, where the sensors are clamped to. */
  predicate Inset(p: Pos, w: int, h: int)
  {
    1.0 <= p.x <= (w - 2) as real && 1.0 <= p.y <= (h - 2) as real
  }

  /** The right, left and forward sensor positions. */
  datatype Sensors = Sensors(right: Pos, left: Pos, forward: Pos)

  /** The sensor positions of mold.js:80-84, at `heading + 45`, `heading - 45`
      and `heading` from the mold. */
  function SensorPoints(s: MoldState, w: int, h: int, m: Math): (sp: Sensors)
    ensures w >= 3 && h >= 3 ==> Inset(sp.right, w, h) && Inset(sp.left, w, h) && Inset(sp.forward, w, h)
  {
    var here := Pos(s.x, s.y);
    Sensors(SensorPoint(here, s.heading + SensorAngle, w, h, m),
            SensorPoint(here, s.heading - SensorAngle, w, h, m),
            SensorPoint(here, s.heading, w, h, m))
  }

  /** The index of the red channel of the pixel under `p` in the `pixels`
      buffer of a canvas `w` wide with pixel density `d`. */
  function PixelIndex(d: int, w: int, p: Pos): (i: int)
    ensures i % 4 == 0
  {
    CellIndex(d, w, p.x.Floor, p.y.Floor)
  }

  /** The red channel of pixel column `col`, row `row`, in device pixels. */
  function CellIndex(d: int, w: int, col: int, row: int): (i: int)
    ensures i % 4 == 0
  {
    var cell := (d * row) * (d * w) + d * col;
    assert 4 * (d * row) * (d * w) + 4 * (d * col) == 4 * cell;
    4 * (d * row) * (d * w) + 4 * (d * col)
  }

  lemma MulLeftStrict(d: int, a: int, b: int)
    requires d > 0 && a < b
    ensures d * a < d * b
  {
    assert d * b == d * a + d * (b - a);
  }

  lemma MulLeftLeq(d: int, a: int, b: int)
    requires d >= 0 && a <= b
    ensures d * a <= d * b
  {
    assert d * b == d * a + d * (b - a);
  }

  /** Row `Y` of `H` rows of length `R`, column `X < R`: the channel index
      `4*Y*R + 4*X` lies below `4*R*H`. */
  lemma IndexBound(X: int, Y: int, R: int, H: int)
    requires 0 <= X < R && 0 <= Y && Y + 1 <= H
    ensures 0 <= 4 * Y * R + 4 * X < 4 * R * H
  {
    MulLeftLeq(R, Y + 1, H);
    MulLeftLeq(R, 0, Y);
    assert R * (Y + 1) == R * Y + R;
    assert 4 * Y * R == 4 * (R * Y);
    assert 4 * R * H == 4 * (R * H);
  }

  /** Inside the one-pixel margin, a cell's red channel lies in the buffer
      of `4 * (d*w) * (d*h)` channels. */
  lemma CellIndexInBounds(d: int, w: int, h: int, col: int, row: int)
    requires d >= 1 && 1 <= col <= w - 2 && 1 <= row <= h - 2
    ensures 0 <= CellIndex(d, w, col, row) < 4 * (d * w) * (d * h)
    ensures CellIndex(d, w, col, row) % 4 == 0
  {
    assert 0 <= d * col < d * w by {
      MulLeftStrict(d, col, w);
      MulLeftLeq(d, 0, col);
    }
    assert 0 <= d * row && d * row + 1 <= d * h by {
      MulLeftLeq(d, 0, row);
      MulLeftLeq(d, row, h - 1);
      assert d * (h - 1) == d * h - d;
    }
    IndexBound(d * col, d * row, d * w, d * h);
    assert CellIndex(d, w, col, row) == 4 * ((d * row) * (d * w) + d * col);
  }

  /** For an integer density `d >= 1` a clamped sensor point reads inside
      the buffer of `4 * (d*w) * (d*h)` channels, at a red channel. */
  lemma PixelIndexInBounds(d: int, w: int, h: int, p: Pos)
    requires d >= 1 && w >= 3 && h >= 3
    requires Inset(p, w, h)
    ensures 0 <= PixelIndex(d, w, p) < 4 * (d * w) * (d * h)
    ensures PixelIndex(d, w, p) % 4 == 0
  {
    CellIndexInBounds(d, w, h, p.x.Floor, p.y.Floor);
  }

  /** What one food adds to the reading at `p`: `getNutritionAt(p.x, p.y)`
      with the distance `dist(p, food)`. */
  function Contribution(f: FoodState, p: Pos, sqrt: real -> real): Reading
  {
    NutritionAt(f, p.x, p.y, Dist(sqrt, p, Pos(f.x, f.y)))
  }

  /** The sum `pixels[index] + Σ food.getNutritionAt(p)` of one sensor,
      food by food in array order. */
  function Signal(base: Reading, foods: seq<FoodState>, i: nat, p: Pos, sqrt: real -> real): (r: Reading)
    requires i <= |foods|
    ensures base.NaN? ==> r.NaN?
  {
    if i == 0 then base
    else Signal(base, foods, i - 1, p, sqrt).Plus(Contribution(foods[i - 1], p, sqrt))
  }

  /** The three sensor readings, right, left and forward. */
  datatype Readings = Readings(right: Reading, left: Reading, forward: Reading)

  /** `nut` gives the nutrition of a food at a point as `getNutritionAt`
      does. The equation is only put to use where a `Contribution` appears. */
  ghost predicate IsNutrition(nut: (FoodState, Pos) -> Reading, sqrt: real -> real)
  {
    forall f, p {:trigger Contribution(f, p, sqrt)} :: nut(f, p) == Contribution(f, p, sqrt)
  }

  /** `getNutritionAt` as a function value. */
  function Nutrition(sqrt: real -> real): (nut: (FoodState, Pos) -> Reading)
    ensures IsNutrition(nut, sqrt)
  {
    (f, p) => Contribution(f, p, sqrt)
  }

  /** One pass of the foods loop of mold.js:104-113: the food's nutrition
      `nut` added at each sensor. */
  function Visit(rd: Readings, f: FoodState, sp: Sensors, nut: (FoodState, Pos) -> Reading): Readings
  {
    Readings(rd.right.Plus(nut(f, sp.right)), rd.left.Plus(nut(f, sp.left)), rd.forward.Plus(nut(f, sp.forward)))
  }

  /** The foods loop on all three readings at once, after its first `i` foods. */
  function Signals(base: Readings, foods: seq<FoodState>, i: nat, sp: Sensors, nut: (FoodState, Pos) -> Reading): Readings
    requires i <= |foods|
  {
    if i == 0 then base
    else Visit(Signals(base, foods, i - 1, sp, nut), foods[i - 1], sp, nut)
  }

  /** The loop on three readings is the sum of each sensor on its own. */
  lemma {:induction false} SignalsPerSensor(base: Readings, foods: seq<FoodState>, i: nat, sp: Sensors,
                                            nut: (FoodState, Pos) -> Reading, sqrt: real -> real)
    requires i <= |foods| && IsNutrition(nut, sqrt)
    ensures Signals(base, foods, i, sp, nut) ==
            Readings(Signal(base.right, foods, i, sp.right, sqrt), Signal(base.left, foods, i, sp.left, sqrt),
                     Signal(base.forward, foods, i, sp.forward, sqrt))
  {
    if i > 0 {
      SignalsPerSensor(base, foods, i - 1, sp, nut, sqrt);
    }
  }

  /** Foods whose squares do not hold `p` add nothing. */
  lemma {:induction false} SignalIgnoresUncovered(base: Reading, foods: seq<FoodState>, i: nat, p: Pos, sqrt: real -> real)
    requires i <= |foods|
    requires forall k :: 0 <= k < i ==> !Covers(foods[k], p.x, p.y)
    ensures Signal(base, foods, i, p, sqrt) == base
  {
    if i > 0 {
      SignalIgnoresUncovered(base, foods, i - 1, p, sqrt);
    }
  }

  /** A NaN from a covered, fully eaten food hides every other reading. */
  lemma {:induction false} EatenFoodBlindsSensor(base: Reading, foods: seq<FoodState>, i: nat, p: Pos, sqrt: real -> real, k: nat)
    requires k < i <= |foods| && Covers(foods[k], p.x, p.y) && foods[k].size == 0.0
    ensures Signal(base, foods, i, p, sqrt).NaN?
  {
    if k < i - 1 {
      EatenFoodBlindsSensor(base, foods, i - 1, p, sqrt, k);
    }
  }


  /** One food after a mold at `here` has visited it: one unit eaten
      (`consume(1)`) when its square holds the mold. */
  function EatOne(f: FoodState, here: Pos): (r: FoodState)
    ensures r.active == f.active && r.x == f.x && r.y == f.y && r.size <= f.size
    ensures !Covers(f, here.x, here.y) ==> r == f
    ensures Covers(f, here.x, here.y) ==> r.beingEaten && r.size == Max(0.0, f.size - 1.0)
  {
    if Covers(f, here.x, here.y) then AfterConsume(f, Some(1.0)).food else f
  }

  /** Every food after the visit of a mold at `here`. */
  function Eaten(foods: seq<FoodState>, here: Pos): (r: seq<FoodState>)
    ensures |r| == |foods|
  {
    if foods == [] then []
    else Eaten(foods[..|foods| - 1], here) + [EatOne(foods[|foods| - 1], here)]
  }

  /** Food `k` after the visit is `EatOne` of food `k` before it. */
  lemma {:induction false} EatenPointwise(foods: seq<FoodState>, here: Pos)
    ensures forall k :: 0 <= k < |foods| ==> Eaten(foods, here)[k] == EatOne(foods[k], here)
  {
    if foods != [] {
      EatenPointwise(foods[..|foods| - 1], here);
    }
  }

  // ---------------------------------------------------------------------
  // Deciding the heading

  /** The left/right edge rule: turn by `RotAngle` away from a near side edge. */
  function SideTurn(x: real, heading: real, w: int): (h: real)
    ensures x < EdgeBuffer ==> h == heading + RotAngle
    ensures x >= EdgeBuffer && x > w as real - EdgeBuffer ==> h == heading - RotAngle
    ensures EdgeBuffer <= x <= w as real - EdgeBuffer ==> h == heading
  {
    if x < EdgeBuffer then heading + RotAngle
    else if x > w as real - EdgeBuffer then heading - RotAngle
    else heading
  }

  datatype EdgeTurn = EdgeTurn(heading: real, fired: bool)

  predicate NearEdge(x: real, y: real, w: int, h: int)
  {
    x < EdgeBuffer || x > w as real - EdgeBuffer || y < EdgeBuffer || y > h as real - EdgeBuffer
  }

  /** Edge avoidance (mold.js:119-148). */
  function AvoidEdges(x: real, y: real, heading: real, w: int, h: int): (e: EdgeTurn)
    ensures e.fired <==> NearEdge(x, y, w, h)
    ensures !e.fired ==> e.heading == heading
    ensures y < EdgeBuffer ==> (e.heading == 315.0 || e.heading == 45.0)
    ensures y < EdgeBuffer ==> (e.heading == 315.0 <==> SideTurn(x, heading, w) > 180.0)
    ensures y >= EdgeBuffer && y > h as real - EdgeBuffer ==> (e.heading == 135.0 || e.heading == 225.0)
    ensures y >= EdgeBuffer && y > h as real - EdgeBuffer ==> (e.heading == 135.0 <==> SideTurn(x, heading, w) < 180.0)
    ensures EdgeBuffer <= y <= h as real - EdgeBuffer ==> e.heading == SideTurn(x, heading, w)
  {
    var sideFired := x < EdgeBuffer || x > w as real - EdgeBuffer;
    var h1 := SideTurn(x, heading, w);
    if y < EdgeBuffer then EdgeTurn(if h1 > 180.0 then 315.0 else 45.0, true)
    else if y > h as real - EdgeBuffer then EdgeTurn(if h1 < 180.0 then 135.0 else 225.0, true)
    else EdgeTurn(h1, sideFired)
  }

  /** Trail following (mold.js:158-174) on readings that compare as in
      JavaScript, so that a NaN reading loses every comparison. */
  function FollowTrail(heading: real, l: Reading, f: Reading, r: Reading, coin: real): (h: real)
    ensures h == heading - RotAngle || h == heading || h == heading + RotAngle
    ensures Greater(f, l) && Greater(f, r) ==> h == heading
    ensures Greater(l, f) && Greater(r, f) ==> h == (if coin < 0.5 then heading + RotAngle else heading - RotAngle)
    ensures l.Num? && r.Num? && l.v == r.v && !(Greater(l, f) && Greater(r, f)) ==> h == heading
    ensures !(Greater(f, l) && Greater(f, r)) && !(Greater(l, f) && Greater(r, f)) ==>
              (h == heading - RotAngle <==> Greater(l, r)) && (h == heading + RotAngle <==> Greater(r, l))
  {
    if Greater(f, l) && Greater(f, r) then heading + 0.0
    else if Greater(l, f) && Greater(r, f) then
      (if coin < 0.5 then heading + RotAngle else heading - RotAngle)
    else if Greater(l, r) then heading + -RotAngle
    else if Greater(r, l) then heading + RotAngle
    else heading
  }

  // ---------------------------------------------------------------------
  // The whole frame

  /** What one frame produces: the new fields, the three sensor points and
      the foods after this mold has eaten. */
  datatype Frame = Frame(mold: MoldState, sensors: Sensors, foods: seq<FoodState>)

  /** The conditions the frame is defined under: the canvas is at least
      3 pixels each way, the density is a whole number, the buffer holds
      `4 * (d*w) * (d*h)` channels, the start indices are drawn below the
      population size, and `sqrt` is a square root. */
  ghost predicate Surroundings(pop: seq<Pos>, self: nat, pixels: seq<int>, w: int, h: int, d: int, m: Math, dr: Draws)
  {
    w >= 3 && h >= 3 && d >= 1 && |pixels| == 4 * (d * w) * (d * h) &&
    self < |pop| && dr.checkStart < |pop| && dr.forceStart < |pop| && IsSqrt(m.sqrt)
  }

  /** The sensor reading at `p`: the red channel under it plus the foods. */
  function Sense(pixels: seq<int>, d: int, w: int, h: int, foods: seq<FoodState>, p: Pos, sqrt: real -> real): (r: Reading)
    requires d >= 1 && w >= 3 && h >= 3 && |pixels| == 4 * (d * w) * (d * h)
    requires Inset(p, w, h)
    ensures (forall k :: 0 <= k < |foods| ==> !Covers(foods[k], p.x, p.y)) ==>
              (PixelIndexInBounds(d, w, h, p); r == Num(pixels[PixelIndex(d, w, p)] as real))
    ensures (exists k :: 0 <= k < |foods| && Covers(foods[k], p.x, p.y) && foods[k].size == 0.0) ==> r.NaN?
  {
    PixelIndexInBounds(d, w, h, p);
    var base := Num(pixels[PixelIndex(d, w, p)] as real);
    if forall k :: 0 <= k < |foods| ==> !Covers(foods[k], p.x, p.y) then
      SignalIgnoresUncovered(base, foods, |foods|, p, sqrt);
      Signal(base, foods, |foods|, p, sqrt)
    else if exists k :: 0 <= k < |foods| && Covers(foods[k], p.x, p.y) && foods[k].size == 0.0 then
      var k :| 0 <= k < |foods| && Covers(foods[k], p.x, p.y) && foods[k].size == 0.0;
      EatenFoodBlindsSensor(base, foods, |foods|, p, sqrt, k);
      Signal(base, foods, |foods|, p, sqrt)
    else Signal(base, foods, |foods|, p, sqrt)
  }

  /** The heading a frame ends with, from the moved mold `s`, by the priority chain. */
  function Steer(s: MoldState, pop: seq<Pos>, self: nat, w: int, h: int,
                 l: Reading, f: Reading, r: Reading, m: Math, dr: Draws): (hd: real)
    requires dr.forceStart < |pop| && IsSqrt(m.sqrt)
    ensures NearEdge(s.x, s.y, w, h) ==> hd == AvoidEdges(s.x, s.y, s.heading, w, h).heading
    ensures !NearEdge(s.x, s.y, w, h) && s.isDispersing ==> s.heading - 36.0 <= hd <= s.heading + 36.0
    ensures !NearEdge(s.x, s.y, w, h) && !s.isDispersing ==>
              hd == s.heading - RotAngle || hd == s.heading || hd == s.heading + RotAngle
  {
    var here := Pos(s.x, s.y);
    var edge := AvoidEdges(s.x, s.y, s.heading, w, h);
    if edge.fired then edge.heading
    else if s.isDispersing then
      ForceHeading(edge.heading, Repulsion(pop, self, dr.forceStart, here, m.sqrt), m.atan2)
    else FollowTrail(edge.heading, l, f, r, dr.coin)
  }

  /** One call of `update()`: the counter, the move, the sensors, the
      readings (taken before this mold eats), then the heading. */
  function Step(s: MoldState, pop: seq<Pos>, self: nat, foods: seq<FoodState>, pixels: seq<int>,
                w: int, h: int, d: int, m: Math, dr: Draws): (fr: Frame)
    requires Surroundings(pop, self, pixels, w, h, d, m, dr)
    ensures fr.mold.stop == s.stop && |fr.foods| == |foods|
  {
    var moved := Advance(StaggeredCheck(s, pop, self, dr.checkStart), w, h, m);
    var sp := SensorPoints(moved, w, h, m);
    var r := Sense(pixels, d, w, h, foods, sp.right, m.sqrt);
    var l := Sense(pixels, d, w, h, foods, sp.left, m.sqrt);
    var f := Sense(pixels, d, w, h, foods, sp.forward, m.sqrt);
    Frame(moved.(heading := Steer(moved, pop, self, w, h, l, f, r, m, dr)), sp, Eaten(foods, Pos(moved.x, moved.y)))
  }

  /** The counter stays in 0..9, and `isDispersing` is recomputed exactly
      on the frames where the counter reaches 10. */
  lemma StepCounter(s: MoldState, pop: seq<Pos>, self: nat, foods: seq<FoodState>, pixels: seq<int>,
                    w: int, h: int, d: int, m: Math, dr: Draws)
    requires Surroundings(pop, self, pixels, w, h, d, m, dr)
    requires 0 <= s.counter < CheckPeriod
    ensures var fr := Step(s, pop, self, foods, pixels, w, h, d, m, dr);
            0 <= fr.mold.counter < CheckPeriod && fr.mold.counter == (s.counter + 1) % CheckPeriod &&
            fr.mold.isDispersing == if s.counter == CheckPeriod - 1 then Dense(pop, self, dr.checkStart, Pos(s.x, s.y))
                                    else s.isDispersing
  {
  }

  /** The mold ends strictly inside the canvas; a stopped mold inside it stays put. */
  lemma StepStaysInside(s: MoldState, pop: seq<Pos>, self: nat, foods: seq<FoodState>, pixels: seq<int>,
                        w: int, h: int, d: int, m: Math, dr: Draws)
    requires Surroundings(pop, self, pixels, w, h, d, m, dr)
    ensures var fr := Step(s, pop, self, foods, pixels, w, h, d, m, dr);
            0.0 < fr.mold.x < (w - 1) as real && 0.0 < fr.mold.y < (h - 1) as real &&
            (s.stop && 0.0 < s.x < (w - 1) as real && 0.0 < s.y < (h - 1) as real ==>
               fr.mold.x == s.x && fr.mold.y == s.y && fr.mold.vx == 0.0 && fr.mold.vy == 0.0)
  {
    var vx := if s.stop then 0.0 else m.Cos(s.heading);
    var vy := if s.stop then 0.0 else m.Sin(s.heading);
    MoveInside(s.x, s.y, s.heading, vx, vy, w, h, m);
    MoveReflects(s.x, s.y, s.heading, vx, vy, w, h, m);
  }

  /** The three sensor points lie in the 1-pixel inset. */
  lemma StepSensorsInside(s: MoldState, pop: seq<Pos>, self: nat, foods: seq<FoodState>, pixels: seq<int>,
                          w: int, h: int, d: int, m: Math, dr: Draws)
    requires Surroundings(pop, self, pixels, w, h, d, m, dr)
    ensures var fr := Step(s, pop, self, foods, pixels, w, h, d, m, dr);
            Inset(fr.sensors.right, w, h) && Inset(fr.sensors.left, w, h) && Inset(fr.sensors.forward, w, h)
  {
  }

  /** Only foods under the mold's new position are eaten, each by one unit. */
  lemma StepEatsUnderfoot(s: MoldState, pop: seq<Pos>, self: nat, foods: seq<FoodState>, pixels: seq<int>,
                          w: int, h: int, d: int, m: Math, dr: Draws)
    requires Surroundings(pop, self, pixels, w, h, d, m, dr)
    ensures var fr := Step(s, pop, self, foods, pixels, w, h, d, m, dr);
            forall k :: 0 <= k < |foods| ==>
              fr.foods[k] == if Covers(foods[k], fr.mold.x, fr.mold.y) then AfterConsume(foods[k], Some(1.0)).food
                             else foods[k]
  {
    var fr := Step(s, pop, self, foods, pixels, w, h, d, m, dr);
    EatenPointwise(foods, Pos(fr.mold.x, fr.mold.y));
  }

  /** Edge avoidance overrides the rest: near an edge neither dispersal
      nor the sensors touch the heading. */
  lemma EdgeAvoidanceWins(s: MoldState, pop: seq<Pos>, self: nat, foods: seq<FoodState>, pixels: seq<int>,
                          w: int, h: int, d: int, m: Math, dr: Draws, pixels': seq<int>, pop': seq<Pos>, dr': Draws)
    requires Surroundings(pop, self, pixels, w, h, d, m, dr)
    requires Surroundings(pop', self, pixels', w, h, d, m, dr')
    requires var fr := Step(s, pop, self, foods, pixels, w, h, d, m, dr);
             NearEdge(fr.mold.x, fr.mold.y, w, h)
    ensures Step(s, pop, self, foods, pixels, w, h, d, m, dr).mold.heading ==
            Step(s, pop', self, foods, pixels', w, h, d, m, dr').mold.heading
  {
  }
}
