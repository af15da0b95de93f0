/** A square food source (food.js): a small state machine over `size`,
    `active` and `beingEaten`. The value type `FoodState` and the functions
    `AfterUpdate`, `AfterConsume` and `AfterRespawn` say what the class
    `Food` does to its fields; the lemmas below are about those functions. */
module FoodSource {
  import opened Common

  const NutritionValue: real := 255.0
  const ConsumptionRate: real := 0.0000001
  const MinSize: real := 5.0
  const RegenerationRate: real := 1.0
  /** The size used when the constructor's `size` argument is left out. */
  const DefaultSize: real := 50.0
  /** `map(distance, 0, size / 2, 1, NutritionFloor)` gives the falloff factor. */
  const NutritionFloor: real := 0.3

  /** The fields of a `Food` that the simulation reads or writes. */
  datatype FoodState = FoodState(x: real, y: real, size: real,
                                 originalSize: real, maxRegeneration: real,
                                 active: bool, beingEaten: bool)

  /** What `getInfo` reports. */
  datatype FoodInfo = FoodInfo(x: real, y: real, size: real, active: bool, nutritionValue: real)

  /** The state `new Food(x, y, size)` creates; an absent size means 50.
      (An absent position is a random draw, supplied here by the caller.) */
  function Spawn(x: real, y: real, size: Option<real>): (s: FoodState)
    ensures s.x == x && s.y == y && s.active && !s.beingEaten
    ensures s.size == (if size.Some? then size.value else DefaultSize)
    ensures s.originalSize == s.size && s.maxRegeneration == s.originalSize
  {
    var sz := if size.Some? then size.value else DefaultSize;
    FoodState(x, y, sz, sz, sz, true, false)
  }

  /** `update()`. The reset of `beingEaten` comes before the regeneration
      test and `checkMoldInteraction` is empty, so the test always sees
      `false`: regeneration is not gated by consumption. */
  function AfterUpdate(s: FoodState): (r: FoodState)
    ensures !s.active ==> r == s
    ensures s.active ==> !r.beingEaten
    ensures r == s.(size := r.size, active := r.active, beingEaten := r.beingEaten)
    ensures s.active && s.size < s.maxRegeneration ==> r.size == Min(s.size + RegenerationRate, s.maxRegeneration)
    ensures s.size <= r.size
    ensures s.size <= s.maxRegeneration ==> r.size <= s.maxRegeneration
    ensures s.size > s.maxRegeneration ==> r.size == s.size
    ensures r.active ==> s.active && r.size > MinSize
    ensures s.active && r.size > MinSize ==> r.active
  {
    if !s.active then s
    else
      var eaten := false;
      var grown := if !eaten && s.size < s.maxRegeneration
                   then Min(s.size + RegenerationRate, s.maxRegeneration)
                   else s.size;
      s.(beingEaten := eaten, size := grown, active := !(grown <= MinSize))
  }

  /** `amount || this.consumptionRate`: a missing or zero amount falls back
      to the consumption rate. */
  function EffectiveAmount(amount: Option<real>): (a: real)
    ensures amount.Some? && amount.value != 0.0 ==> a == amount.value
    ensures amount.None? || amount.value == 0.0 ==> a == ConsumptionRate
  {
    if amount.None? || amount.value == 0.0 then ConsumptionRate else amount.value
  }

  /** The new state and the return value of `consume(amount)`. */
  datatype Consumed = Consumed(food: FoodState, ok: bool)

  function AfterConsume(s: FoodState, amount: Option<real>): (r: Consumed)
    ensures !s.active ==> r.food == s && !r.ok
    ensures s.active ==> r.food.beingEaten
    ensures r.food == s.(size := r.food.size, beingEaten := r.food.beingEaten)
    ensures s.active ==> r.food.size == Max(0.0, s.size - EffectiveAmount(amount))
    ensures s.active ==> r.food.size >= 0.0
    ensures s.active && s.size > 0.0 && EffectiveAmount(amount) > 0.0 ==> r.food.size < s.size
    ensures r.ok <==> s.active && r.food.size > 0.0
  {
    if !s.active then Consumed(s, false)
    else
      var sz := Max(0.0, s.size - EffectiveAmount(amount));
      Consumed(s.(beingEaten := true, size := sz), sz > 0.0)
  }

  /** `contains(px, py)`: the closed square of side `size` centred on the food. */
  predicate Covers(s: FoodState, px: real, py: real): (b: bool)
    ensures b ==> s.active && s.size >= 0.0
    ensures px == s.x && py == s.y ==> (b <==> s.active && s.size >= 0.0)
  {
    s.active &&
    px >= s.x - s.size / 2.0 && px <= s.x + s.size / 2.0 &&
    py >= s.y - s.size / 2.0 && py <= s.y + s.size / 2.0
  }

  /** `getNutritionAt(px, py)`, with `dst` the value of `dist(px, py, x, y)`.
      With `size == 0` the only covered point is the centre, where `map`
      divides 0 by 0 and the JavaScript yields NaN. */
  function NutritionAt(s: FoodState, px: real, py: real, dst: real): (r: Reading)
    ensures !Covers(s, px, py) ==> r == Num(0.0)
    ensures r.NaN? <==> Covers(s, px, py) && s.size == 0.0
    ensures Covers(s, px, py) && s.size > 0.0 && 0.0 <= dst <= s.size / 2.0 ==>
              r.Num? && NutritionFloor * NutritionValue <= r.v <= NutritionValue
  {
    if !s.active || !Covers(s, px, py) then Num(0.0)
    else if s.size / 2.0 == 0.0 then NaN
    else
      var h := s.size / 2.0;
      FalloffFactor(dst, h);
      if 0.0 <= dst <= h then
        DivLeq(0.0, dst, h);
        DivLeq(dst, h, h);
        DivSelf(h);
        Num(NutritionValue * MapRange(dst, 0.0, h, 1.0, NutritionFloor))
      else Num(NutritionValue * MapRange(dst, 0.0, h, 1.0, NutritionFloor))
  }

  /** Outside the square the value is 0; inside a square of positive size it
      falls linearly from 255 at the centre to 30% at distance `size / 2`;
      a covered square of size 0 gives NaN, and nothing else does. */
  lemma NutritionCases(s: FoodState, px: real, py: real, dst: real)
    ensures var r := NutritionAt(s, px, py, dst);
            (!Covers(s, px, py) ==> r == Num(0.0)) &&
            (Covers(s, px, py) ==> s.size >= 0.0) &&
            (Covers(s, px, py) && s.size > 0.0 ==>
               r == Num(NutritionValue * (1.0 - (1.0 - NutritionFloor) * dst / (s.size / 2.0)))) &&
            (r.NaN? <==> Covers(s, px, py) && s.size == 0.0)
  {
    if Covers(s, px, py) && s.size > 0.0 {
      FalloffFactor(dst, s.size / 2.0);
    }
  }

  lemma FalloffFactor(dst: real, h: real)
    requires h != 0.0
    ensures MapRange(dst, 0.0, h, 1.0, NutritionFloor) == 1.0 - (1.0 - NutritionFloor) * dst / h
  {
    calc {
      MapRange(dst, 0.0, h, 1.0, NutritionFloor);
      (dst - 0.0) / (h - 0.0) * (NutritionFloor - 1.0) + 1.0;
      1.0 - (1.0 - NutritionFloor) * dst / h;
    }
  }

  /** `respawn(x, y, size)`: an absent size means the original size. */
  function AfterRespawn(s: FoodState, x: real, y: real, size: Option<real>): (r: FoodState)
    ensures r.active && !r.beingEaten && r.x == x && r.y == y
    ensures r.size == (if size.Some? then size.value else s.originalSize)
    ensures r.originalSize == s.originalSize && r.maxRegeneration == s.maxRegeneration
  {
    s.(x := x, y := y, size := if size.Some? then size.value else s.originalSize,
       active := true, beingEaten := false)
  }

  function Info(s: FoodState): (i: FoodInfo)
    ensures i.x == s.x && i.y == s.y && i.size == s.size && i.active == s.active
    ensures i.nutritionValue == NutritionValue
  {
    FoodInfo(s.x, s.y, s.size, s.active, NutritionValue)
  }

  // ---------------------------------------------------------------------
  // The falloff of nutrition

  lemma NutritionPeakAtCentre(s: FoodState)
    requires s.active && s.size > 0.0
    ensures NutritionAt(s, s.x, s.y, 0.0) == Num(NutritionValue)
  {
  }

  /** At distance `size / 2` (the midpoint of a side) the value is 30% of the peak. */
  lemma NutritionFloorAtHalfSide(s: FoodState, px: real, py: real)
    requires s.active && s.size > 0.0 && Covers(s, px, py)
    ensures NutritionAt(s, px, py, s.size / 2.0) == Num(NutritionFloor * NutritionValue)
  {
  }

  lemma NutritionNonIncreasing(s: FoodState, px: real, py: real, d1: real, qx: real, qy: real, d2: real)
    requires s.size > 0.0 && Covers(s, px, py) && Covers(s, qx, qy) && d1 <= d2
    ensures NutritionAt(s, px, py, d1).Num? && NutritionAt(s, qx, qy, d2).Num?
    ensures NutritionAt(s, qx, qy, d2).v <= NutritionAt(s, px, py, d1).v
  {
    NutritionCases(s, px, py, d1);
    NutritionCases(s, qx, qy, d2);
    DivLeq(d1, d2, s.size / 2.0);
  }

  // ---------------------------------------------------------------------
  // Lifecycle over many frames

  /** One outside call on a food: `update()`, `consume(amount)` or `respawn(x, y, size)`. */
  datatype FoodEvent = Tick | Eat(amount: Option<real>) | Reset(x: real, y: real, size: Option<real>)

  function Apply(s: FoodState, e: FoodEvent): FoodState
  {
    match e
    case Tick => AfterUpdate(s)
    case Eat(a) => AfterConsume(s, a).food
    case Reset(x, y, sz) => AfterRespawn(s, x, y, sz)
  }

  function Run(s: FoodState, es: seq<FoodEvent>): FoodState
    decreases |es|
  {
    if es == [] then s else Run(Apply(s, es[0]), es[1..])
  }

  predicate NoReset(es: seq<FoodEvent>)
  {
    forall i :: 0 <= i < |es| ==> !es[i].Reset?
  }

  /** Only `respawn` brings a food back: once inactive, any run of updates
      and consumptions leaves every field as it was. */
  lemma {:induction false} InactiveIsAbsorbing(s: FoodState, es: seq<FoodEvent>)
    requires !s.active && NoReset(es)
    ensures Run(s, es) == s
    decreases |es|
  {
    if es != [] {
      assert !es[0].Reset?;
      assert NoReset(es[1..]) by {
        forall i | 0 <= i < |es[1..]| ensures !es[1..][i].Reset? {
          assert es[1..][i] == es[i + 1];
        }
      }
      InactiveIsAbsorbing(Apply(s, es[0]), es[1..]);
    }
  }

  /** `0 <= size <= maxRegeneration == originalSize`. */
  predicate Bounded(s: FoodState)
  {
    0.0 <= s.size <= s.maxRegeneration && s.maxRegeneration == s.originalSize
  }

  /** Calls that cannot push the size out of bounds: a non-negative amount,
      and a respawn size within the original size. */
  predicate Sensible(e: FoodEvent)
  {
    match e
    case Tick => true
    case Eat(a) => EffectiveAmount(a) >= 0.0
    case Reset(_, _, sz) => sz.None? || 0.0 <= sz.value
  }

  lemma {:induction false} RunKeepsBounds(s: FoodState, es: seq<FoodEvent>)
    requires Bounded(s)
    requires forall i :: 0 <= i < |es| ==> Sensible(es[i])
    requires forall i :: 0 <= i < |es| ==> es[i].Reset? && es[i].size.Some? ==> es[i].size.value <= s.originalSize
    ensures Bounded(Run(s, es))
    ensures Run(s, es).originalSize == s.originalSize
    decreases |es|
  {
    if es != [] {
      var next := Apply(s, es[0]);
      assert Bounded(next) && next.originalSize == s.originalSize by {
        assert Sensible(es[0]);
      }
      forall i | 0 <= i < |es[1..]|
        ensures Sensible(es[1..][i])
        ensures es[1..][i].Reset? && es[1..][i].size.Some? ==> es[1..][i].size.value <= next.originalSize
      {
        assert es[1..][i] == es[i + 1];
      }
      RunKeepsBounds(next, es[1..]);
    }
  }

  /** One frame of the sketch for a food with a single mold on it:
      `update()`, then that mold's `consume(1)`. */
  function EatenFrame(s: FoodState): FoodState
  {
    AfterConsume(AfterUpdate(s), Some(1.0)).food
  }

  function EatenFrames(s: FoodState, k: nat): FoodState
  {
    if k == 0 then s else EatenFrame(EatenFrames(s, k - 1))
  }

  /** Because regeneration is not gated, a default-size food under one
      mold settles at 49 and never deactivates. */
  lemma {:induction false} SingleEaterNeverDepletes(x: real, y: real, k: nat)
    requires k >= 1
    ensures EatenFrames(Spawn(x, y, None), k).active
    ensures EatenFrames(Spawn(x, y, None), k).size == DefaultSize - 1.0
    ensures EatenFrames(Spawn(x, y, None), k).maxRegeneration == DefaultSize
  {
    if k > 1 {
      SingleEaterNeverDepletes(x, y, k - 1);
    }
  }

  // ---------------------------------------------------------------------
  // The object

  class Food {
    var x: real
    var y: real
    var size: real
    const originalSize: real
    const maxRegeneration: real
    var active: bool
    var beingEaten: bool

    function State(): FoodState
      reads this
    {
      FoodState(x, y, size, originalSize, maxRegeneration, active, beingEaten)
    }

    constructor (x: real, y: real, size: Option<real>)
      ensures State() == Spawn(x, y, size)
    {
      var sz := if size.Some? then size.value else DefaultSize;
      this.x := x;
      this.y := y;
      this.size := sz;
      originalSize := sz;
      maxRegeneration := sz;
      active := true;
      beingEaten := false;
    }

    method Update()
      modifies this
      ensures State() == AfterUpdate(old(State()))
    {
      if !active {
        return;
      }
      beingEaten := false;
      CheckMoldInteraction();
      if !beingEaten && size < maxRegeneration {
        size := size + RegenerationRate;
        size := Min(size, maxRegeneration);
      }
      if size <= MinSize {
        active := false;
      }
    }

    /** Empty in the source. */
    method CheckMoldInteraction()
      ensures unchanged(this)
    {
    }

    method Consume(amount: Option<real>) returns (ok: bool)
      modifies this
      ensures State() == AfterConsume(old(State()), amount).food
      ensures ok == AfterConsume(old(State()), amount).ok
    {
      if !active {
        return false;
      }
      beingEaten := true;
      size := size - EffectiveAmount(amount);
      size := Max(0.0, size);
      return size > 0.0;
    }

    function Contains(px: real, py: real): (b: bool)
      reads this
      ensures b <==> active && x - size / 2.0 <= px <= x + size / 2.0
                           && y - size / 2.0 <= py <= y + size / 2.0
    {
      Covers(State(), px, py)
    }

    /** `getNutritionAt(px, py)`, with `dst` the value of `dist(px, py, x, y)`:
        0 off the food, the linear falloff on a food of positive size. */
    function GetNutritionAt(px: real, py: real, dst: real): (r: Reading)
      reads this
      ensures !Contains(px, py) ==> r == Num(0.0)
      ensures Contains(px, py) && size > 0.0 ==>
                r == Num(NutritionValue * (1.0 - (1.0 - NutritionFloor) * dst / (size / 2.0)))
    {
      NutritionCases(State(), px, py, dst);
      NutritionAt(State(), px, py, dst)
    }

    method Respawn(x: real, y: real, size: Option<real>)
      modifies this
      ensures State() == AfterRespawn(old(State()), x, y, size)
    {
      this.x := x;
      this.y := y;
      this.size := if size.Some? then size.value else originalSize;
      active := true;
      beingEaten := false;
    }

    function GetInfo(): (info: FoodInfo)
      reads this
      ensures info == Info(State())
    {
      FoodInfo(x, y, size, active, NutritionValue)
    }
  }
}
