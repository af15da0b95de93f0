/** The `Mold` agent of mold.js as an object: its fields are updated in
    place by `Update`, which is proved to perform `MoldStep.Step`, and the
    sensor positions are separate objects that `GetSensorPos` writes. The
    other molds are seen through an array of their positions, with the
    mold itself at index `self`; the foods are the sketch's `Food` objects. */
module MoldAgent {
  import opened Common
  import opened FoodSource
  import opened Dispersal
  import opened MoldStep

  /** The `createVector(0, 0)` a sensor position is written into. */
  class SensorPos {
    var x: real
    var y: real

    constructor ()
      ensures x == 0.0 && y == 0.0
    {
      x := 0.0;
      y := 0.0;
    }

    function At(): Pos
      reads this
    {
      Pos(x, y)
    }
  }

  /** The states of a sequence of food objects. */
  function States(foods: seq<Food>): (r: seq<FoodState>)
    reads set f | f in foods
    ensures |r| == |foods|
    ensures forall k :: 0 <= k < |foods| ==> r[k] == foods[k].State()
  {
    if foods == [] then []
    else States(foods[..|foods| - 1]) + [foods[|foods| - 1].State()]
  }

  /** One pass of the foods loop of mold.js:104-113 for the mold at `here`. */
  method VisitFood(food: Food, rd: Readings, sp: Sensors, here: Pos, m: Math,
                   ghost s: FoodState, ghost nut: (FoodState, Pos) -> Reading) returns (next: Readings)
    requires food.State() == s && IsNutrition(nut, m.sqrt)
    modifies food
    ensures next == Visit(rd, s, sp, nut)
    ensures food.State() == EatOne(s, here)
  {
    var r := food.GetNutritionAt(sp.right.x, sp.right.y, Dist(m.sqrt, sp.right, Pos(food.x, food.y)));
    var l := food.GetNutritionAt(sp.left.x, sp.left.y, Dist(m.sqrt, sp.left, Pos(food.x, food.y)));
    var f := food.GetNutritionAt(sp.forward.x, sp.forward.y, Dist(m.sqrt, sp.forward, Pos(food.x, food.y)));
    assert r == Contribution(s, sp.right, m.sqrt) && l == Contribution(s, sp.left, m.sqrt)
        && f == Contribution(s, sp.forward, m.sqrt);
    next := Readings(rd.right.Plus(r), rd.left.Plus(l), rd.forward.Plus(f));
    if food.Contains(here.x, here.y) {
      var eaten := food.Consume(Some(1.0));
    }
  }

  /** Foods whose states are those of `before`, each eaten at `here`. */
  lemma StatesEaten(foods: seq<Food>, before: seq<FoodState>, here: Pos)
    requires |before| == |foods|
    requires forall k :: 0 <= k < |foods| ==> foods[k].State() == EatOne(before[k], here)
    ensures States(foods) == Eaten(before, here)
  {
    EatenPointwise(before, here);
    assert forall k :: 0 <= k < |foods| ==> States(foods)[k] == Eaten(before, here)[k];
  }

  /** The foods loop of mold.js:104-115: every food adds its nutrition at
      each sensor, and is eaten by one unit when the mold at `here` stands on it. */
  method VisitFoods(foods: seq<Food>, base: Readings, sp: Sensors, here: Pos, m: Math,
                    ghost before: seq<FoodState>, ghost nut: (FoodState, Pos) -> Reading) returns (rd: Readings)
    requires Distinct(foods) && |before| == |foods| && IsNutrition(nut, m.sqrt)
    requires forall k :: 0 <= k < |foods| ==> foods[k].State() == before[k]
    modifies set food | food in foods
    ensures rd == Signals(base, before, |foods|, sp, nut)
    ensures forall k :: 0 <= k < |foods| ==> foods[k].State() == EatOne(before[k], here)
  {
    rd := base;
    var i := 0;
    while i < |foods|
      invariant 0 <= i <= |foods|
      invariant forall k :: 0 <= k < |foods| ==> foods[k].State() == if k < i then EatOne(before[k], here) else before[k]
      invariant rd == Signals(base, before, i, sp, nut)
      modifies set food | food in foods
    {
      forall k | 0 <= k < |foods| && k != i
        ensures foods[k] != foods[i]
      {
        assert Apart(foods[k], foods[i]);
      }
      rd := VisitFood(foods[i], rd, sp, here, m, before[i], nut);
      i := i + 1;
    }
  }

  /** The sketch pushes a fresh `Food` for every click, so no object repeats. */
  predicate Distinct(foods: seq<Food>)
  {
    forall i, j {:trigger Apart(foods[i], foods[j])} :: 0 <= i < |foods| && 0 <= j < |foods| && i != j ==> Apart(foods[i], foods[j])
  }

  predicate Apart(a: Food, b: Food)
  {
    a != b
  }

  class Mold {
    var x: real
    var y: real
    var heading: real
    var vx: real
    var vy: real
    var stop: bool
    var isDispersing: bool
    var dispersalCheckCounter: int
    const rSensorPos: SensorPos
    const lSensorPos: SensorPos
    const fSensorPos: SensorPos

    /** Three separate sensor objects, and the counter in 0..9. */
    ghost predicate Valid()
      reads this
    {
      rSensorPos != lSensorPos && rSensorPos != fSensorPos && lSensorPos != fSensorPos &&
      0 <= dispersalCheckCounter < CheckPeriod
    }

    function State(): MoldState
      reads this
    {
      MoldState(x, y, heading, vx, vy, stop, isDispersing, dispersalCheckCounter)
    }

    /** Where the three sensors are. */
    function SensorsAt(): Sensors
      reads this, rSensorPos, lSensorPos, fSensorPos
    {
      Sensors(rSensorPos.At(), lSensorPos.At(), fSensorPos.At())
    }

    /** `new Mold(startX, startY)`, with `heading0 = random(360)` and
        `stagger = random(10)` drawn by the caller. */
    constructor (startX: real, startY: real, heading0: real, stagger: real, m: Math)
      requires 0.0 <= stagger < 10.0
      ensures Valid()
      ensures State() == MoldState(startX, startY, heading0, m.Cos(heading0), m.Sin(heading0),
                                   false, false, stagger.Floor)
      ensures SensorsAt() == Sensors(Pos(0.0, 0.0), Pos(0.0, 0.0), Pos(0.0, 0.0))
      ensures fresh(rSensorPos) && fresh(lSensorPos) && fresh(fSensorPos)
    {
      x := startX;
      y := startY;
      heading := heading0;
      vx := m.Cos(heading0);
      vy := m.Sin(heading0);
      stop := false;
      isDispersing := false;
      dispersalCheckCounter := stagger.Floor;
      rSensorPos := new SensorPos();
      lSensorPos := new SensorPos();
      fSensorPos := new SensorPos();
    }

    /** `getSensorPos(sensor, angle)`. */
    method GetSensorPos(sensor: SensorPos, angle: real, w: int, h: int, m: Math)
      modifies sensor
      ensures sensor.At() == SensorPoint(Pos(x, y), angle, w, h, m)
    {
      sensor.x := Constrain(x + SensorDist * m.Cos(angle), 1.0, (w - 2) as real);
      sensor.y := Constrain(y + SensorDist * m.Sin(angle), 1.0, (h - 2) as real);
    }

    /** `checkDispersalBehavior()`, with `start = floor(random(n))`. */
    method CheckDispersalBehavior(pop: array<Pos>, self: nat, start: nat)
      requires self < pop.Length && start < pop.Length
      modifies this
      ensures State() == old(State()).(isDispersing := Dense(pop[..], self, start, Pos(x, y)))
    {
      isDispersing := ScanDensity(pop, self, start, Pos(x, y));
    }

    /** `applyDispersalForce()`, with `start = floor(random(n))`. */
    method ApplyDispersalForce(pop: array<Pos>, self: nat, start: nat, m: Math)
      requires self < pop.Length && start < pop.Length && IsSqrt(m.sqrt)
      modifies this
      ensures State() == old(State()).(heading := ForceHeading(old(heading),
                Repulsion(pop[..], self, start, Pos(x, y), m.sqrt), m.atan2))
    {
      var force := ScanForce(pop, self, start, Pos(x, y), m.sqrt);
      if force.count > 0 {
        var dispersalX := force.sumX / force.count as real;
        var dispersalY := force.sumY / force.count as real;
        var dispersalHeading := m.Atan2(dispersalY, dispersalX);
        var headingDiff := NormalizeAngle(dispersalHeading - heading);
        heading := heading + headingDiff * Smoothing;
      }
    }

    /** The red channel under one sensor (mold.js:91-100). */
    method ReadPixel(sensor: SensorPos, pixels: array<int>, w: int, h: int, d: int) returns (v: Reading)
      requires d >= 1 && w >= 3 && h >= 3 && pixels.Length == 4 * (d * w) * (d * h)
      requires Inset(sensor.At(), w, h)
      ensures 0 <= PixelIndex(d, w, sensor.At()) < pixels.Length
      ensures v == Num(pixels[PixelIndex(d, w, sensor.At())] as real)
    {
      var index := 4 * (d * sensor.y.Floor) * (d * w) + 4 * (d * sensor.x.Floor);
      PixelIndexInBounds(d, w, h, sensor.At());
      v := Num(pixels[index] as real);
    }

    /** Edge avoidance (mold.js:117-148): turns the heading near an edge
        and says whether it did. */
    method AvoidEdge(w: int, h: int) returns (edgeAvoidance: bool)
      modifies this
      ensures EdgeTurn(heading, edgeAvoidance) == AvoidEdges(old(x), old(y), old(heading), w, h)
      ensures State() == old(State()).(heading := heading)
    {
      edgeAvoidance := false;
      if x < EdgeBuffer {
        heading := heading + RotAngle;
        edgeAvoidance := true;
      } else if x > w as real - EdgeBuffer {
        heading := heading - RotAngle;
        edgeAvoidance := true;
      }
      if y < EdgeBuffer {
        if heading > 180.0 {
          heading := 315.0;
        } else {
          heading := 45.0;
        }
        edgeAvoidance := true;
      } else if y > h as real - EdgeBuffer {
        if heading < 180.0 {
          heading := 135.0;
        } else {
          heading := 225.0;
        }
        edgeAvoidance := true;
      }
    }

    /** Trail following (mold.js:158-174): turn towards the strongest
        reading, at random when both sides beat the front. */
    method FollowTrail(l: Reading, f: Reading, r: Reading, coin: real)
      modifies this
      ensures State() == old(State()).(heading := MoldStep.FollowTrail(old(heading), l, f, r, coin))
    {
      if Greater(f, l) && Greater(f, r) {
        heading := heading + 0.0;
      } else if Greater(l, f) && Greater(r, f) {
        if coin < 0.5 {
          heading := heading + RotAngle;
        } else {
          heading := heading - RotAngle;
        }
      } else if Greater(l, r) {
        heading := heading + -RotAngle;
      } else if Greater(r, l) {
        heading := heading + RotAngle;
      }
    }

    /** Edge avoidance, then dispersal or trail following (mold.js:117-175). */
    method Steer(pop: array<Pos>, self: nat, w: int, h: int, l: Reading, f: Reading, r: Reading, m: Math, dr: Draws)
      requires self < pop.Length && dr.forceStart < pop.Length && IsSqrt(m.sqrt)
      modifies this
      ensures State() == old(State()).(heading := MoldStep.Steer(old(State()), pop[..], self, w, h, l, f, r, m, dr))
    {
      var edgeAvoidance := AvoidEdge(w, h);
      if edgeAvoidance {
      } else if isDispersing {
        ApplyDispersalForce(pop, self, dr.forceStart, m);
      } else {
        FollowTrail(l, f, r, dr.coin);
      }
    }

    /** The staggered density check (mold.js:36-42). */
    method TickCounter(pop: array<Pos>, self: nat, start: nat)
      requires self < pop.Length && start < pop.Length
      modifies this
      ensures State() == StaggeredCheck(old(State()), pop[..], self, start)
    {
      dispersalCheckCounter := dispersalCheckCounter + 1;
      if dispersalCheckCounter >= CheckPeriod {
        CheckDispersalBehavior(pop, self, start);
        dispersalCheckCounter := 0;
      }
    }

    /** Movement control (mold.js:44-53). */
    method ControlMovement(m: Math)
      modifies this
      ensures State() == MoldStep.ControlMovement(old(State()), m)
    {
      if stop {
        vx := 0.0;
        vy := 0.0;
      } else {
        vx := m.Cos(heading);
        vy := m.Sin(heading);
      }
    }

    /** The move with edge collisions (mold.js:55-78). */
    method Collide(w: int, h: int, m: Math)
      modifies this
      ensures State() == MoldStep.Collide(old(State()), w, h, m)
    {
      ghost var mv := MoldStep.Move(x, y, heading, vx, vy, w, h, m);
      var newX := x + vx;
      var newY := y + vy;
      ghost var afterX := BounceX(Moved(newX, newY, heading, vx, vy), w, m);
      if newX <= 0.0 || newX >= (w - 1) as real {
        heading := 180.0 - heading;
        vx := m.Cos(heading);
        vy := m.Sin(heading);
        newX := Constrain(newX, 1.0, (w - 2) as real);
      }
      assert Moved(newX, newY, heading, vx, vy) == afterX;
      if newY <= 0.0 || newY >= (h - 1) as real {
        heading := -heading;
        vx := m.Cos(heading);
        vy := m.Sin(heading);
        newY := Constrain(newY, 1.0, (h - 2) as real);
      }
      assert Moved(newX, newY, heading, vx, vy) == mv;
      x := newX;
      y := newY;
    }

    /** The three sensor positions (mold.js:80-84). */
    method PlaceSensors(w: int, h: int, m: Math)
      requires Valid()
      modifies rSensorPos, lSensorPos, fSensorPos
      ensures SensorsAt() == SensorPoints(State(), w, h, m)
    {
      GetSensorPos(rSensorPos, heading + SensorAngle, w, h, m);
      GetSensorPos(lSensorPos, heading - SensorAngle, w, h, m);
      GetSensorPos(fSensorPos, heading, w, h, m);
    }

    /** The sensor readings: pixels, then foods (mold.js:86-115). */
    method ReadSensors(foods: seq<Food>, pixels: array<int>, w: int, h: int, d: int, m: Math)
        returns (l: Reading, f: Reading, r: Reading)
      requires Distinct(foods)
      requires d >= 1 && w >= 3 && h >= 3 && pixels.Length == 4 * (d * w) * (d * h)
      requires Inset(rSensorPos.At(), w, h) && Inset(lSensorPos.At(), w, h) && Inset(fSensorPos.At(), w, h)
      modifies set food | food in foods
      ensures r == MoldStep.Sense(pixels[..], d, w, h, old(States(foods)), rSensorPos.At(), m.sqrt)
      ensures l == MoldStep.Sense(pixels[..], d, w, h, old(States(foods)), lSensorPos.At(), m.sqrt)
      ensures f == MoldStep.Sense(pixels[..], d, w, h, old(States(foods)), fSensorPos.At(), m.sqrt)
      ensures States(foods) == Eaten(old(States(foods)), Pos(x, y))
    {
      r := ReadPixel(rSensorPos, pixels, w, h, d);
      l := ReadPixel(lSensorPos, pixels, w, h, d);
      f := ReadPixel(fSensorPos, pixels, w, h, d);
      var base, sp := Readings(r, l, f), SensorsAt();
      ghost var before := States(foods);
      ghost var nut := Nutrition(m.sqrt);
      SignalsPerSensor(base, before, |foods|, sp, nut, m.sqrt);
      var rd := VisitFoods(foods, base, sp, Pos(x, y), m, before, nut);
      StatesEaten(foods, before, Pos(x, y));
      r, l, f := rd.right, rd.left, rd.forward;
    }

    /** The first half of `update()`: the counter, the move and the
        sensor positions (mold.js:36-84). */
    method Move(pop: array<Pos>, self: nat, start: nat, w: int, h: int, m: Math)
      requires Valid() && self < pop.Length && start < pop.Length
      modifies this, rSensorPos, lSensorPos, fSensorPos
      ensures Valid()
      ensures State() == MoldStep.Advance(StaggeredCheck(old(State()), pop[..], self, start), w, h, m)
      ensures SensorsAt() == SensorPoints(State(), w, h, m)
    {
      TickCounter(pop, self, start);
      ControlMovement(m);
      Collide(w, h, m);
      PlaceSensors(w, h, m);
    }

    /** The second half of `update()`: the readings, the foods and the
        heading (mold.js:86-175). */
    method SenseAndSteer(pop: array<Pos>, self: nat, foods: seq<Food>, pixels: array<int>,
                         w: int, h: int, d: int, m: Math, dr: Draws)
      requires Distinct(foods) && d >= 1 && w >= 3 && h >= 3 && pixels.Length == 4 * (d * w) * (d * h)
      requires Inset(rSensorPos.At(), w, h) && Inset(lSensorPos.At(), w, h) && Inset(fSensorPos.At(), w, h)
      requires self < pop.Length && dr.forceStart < pop.Length && IsSqrt(m.sqrt)
      modifies this, set food | food in foods
      ensures State() == old(State()).(heading := MoldStep.Steer(old(State()), pop[..], self, w, h,
                Sense(pixels[..], d, w, h, old(States(foods)), lSensorPos.At(), m.sqrt),
                Sense(pixels[..], d, w, h, old(States(foods)), fSensorPos.At(), m.sqrt),
                Sense(pixels[..], d, w, h, old(States(foods)), rSensorPos.At(), m.sqrt), m, dr))
      ensures States(foods) == Eaten(old(States(foods)), Pos(x, y))
    {
      var l, f, r := ReadSensors(foods, pixels, w, h, d, m);
      Steer(pop, self, w, h, l, f, r, m, dr);
    }

    /** `update()`: one frame of this mold. */
    method Update(pop: array<Pos>, self: nat, foods: seq<Food>, pixels: array<int>,
                  w: int, h: int, d: int, m: Math, dr: Draws)
      requires Valid() && Distinct(foods)
      requires Surroundings(pop[..], self, pixels[..], w, h, d, m, dr)
      modifies this, rSensorPos, lSensorPos, fSensorPos, set food | food in foods
      ensures Valid()
      ensures var fr := Step(old(State()), pop[..], self, old(States(foods)), pixels[..], w, h, d, m, dr);
              State() == fr.mold && SensorsAt() == fr.sensors && States(foods) == fr.foods
    {
      ghost var pop0, pixels0, foods0 := pop[..], pixels[..], States(foods);
      Move(pop, self, dr.checkStart, w, h, m);
      assert pop[..] == pop0 && pixels[..] == pixels0 && States(foods) == foods0;
      SenseAndSteer(pop, self, foods, pixels, w, h, d, m, dr);
      assert pop[..] == pop0 && pixels[..] == pixels0;
    }
  }
}
