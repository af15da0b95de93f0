/** The density-based dispersal of mold.js: the bounded wraparound scans of
    `checkDispersalBehavior` and `applyDispersalForce`, and the `while`-loop
    normalisation of the heading difference. Each scan is a method over the
    population's positions, proved equal to a function that names what it
    computes; the lemmas are about those functions. */
module Dispersal {
  import opened Common

  const DispersalRadius: real := 25.0
  const RadiusSq: real := DispersalRadius * DispersalRadius
  const MinClusterSize: nat := 8
  const DispersalStrength: real := 2.0
  /** The neighbour caps of `checkDispersalBehavior` and `applyDispersalForce`. */
  const MaxDensityChecks: nat := 50
  const MaxForceChecks: nat := 20
  /** The share of the heading difference applied per frame. */
  const Smoothing: real := 0.2

  function DistSq(p: Pos, q: Pos): real
  {
    Sq(p.x - q.x) + Sq(p.y - q.y)
  }

  /** p5's `dist(p, q)`, given the square root. */
  function Dist(sqrt: real -> real, p: Pos, q: Pos): real
  {
    sqrt(DistSq(p, q))
  }

  /** The density test: strictly inside the dispersal radius. */
  predicate Near(p: Pos, q: Pos)
  {
    DistSq(p, q) < RadiusSq
  }

  /** The force test: inside the radius and farther than 1, so that the
      division by the distance is safe. */
  predicate Repels(p: Pos, q: Pos)
  {
    DistSq(p, q) < RadiusSq && DistSq(p, q) > 1.0
  }

  // ---------------------------------------------------------------------
  // The scan order shared by both scans

  /** The index the loop visits at offset `t`: `(start + t) % n`, written
      out for `start, t < n` (see `WrapIsMod`). */
  function Wrap(n: nat, start: nat, t: nat): (k: nat)
    requires start < n && t < n
    ensures k < n
  {
    if start + t < n then start + t else start + t - n
  }

  lemma WrapIsMod(n: nat, start: nat, t: nat)
    requires start < n && t < n
    ensures Wrap(n, start, t) == (start + t) % n
  {
    ModOnce(start + t, n);
  }

  lemma ModOnce(a: nat, n: nat)
    requires 0 < n && a < 2 * n
    ensures a % n == (if a < n then a else a - n)
  {
  }

  /** Two offsets of one sweep never meet the same mold. */
  lemma WrapInjective(n: nat, start: nat, t1: nat, t2: nat)
    requires start < n && t1 < n && t2 < n && t1 != t2
    ensures Wrap(n, start, t1) != Wrap(n, start, t2)
  {
  }

  /** The loop's `checked` after offsets `0 .. i-1`: how many of them landed
      on a mold other than `self`. */
  function Checked(n: nat, start: nat, self: nat, i: nat): (c: nat)
    requires start < n && i <= n
    ensures c <= i
  {
    if i == 0 then 0
    else Checked(n, start, self, i - 1) + (if Wrap(n, start, i - 1) == self then 0 else 1)
  }

  /** The offset at which `for (i = 0; i < n && checked < cap; i++)` stops,
      looking from offset `i` on. */
  function StopFrom(n: nat, start: nat, self: nat, cap: nat, i: nat): (stop: nat)
    requires start < n && i <= n
    ensures i <= stop <= n
    decreases n - i
  {
    if i == n || Checked(n, start, self, i) >= cap then i
    else StopFrom(n, start, self, cap, i + 1)
  }

  /** How many offsets a scan with cap `cap` runs through. The molds it
      examines are `Wrap(n, start, t)` for `t < Stop(...)`, except `self`. */
  function Stop(n: nat, start: nat, self: nat, cap: nat): (stop: nat)
    requires start < n
    ensures stop <= n
  {
    StopFrom(n, start, self, cap, 0)
  }

  lemma {:induction false} StopFromIsFirst(n: nat, start: nat, self: nat, cap: nat, i: nat)
    requires start < n && i <= n && Checked(n, start, self, i) <= cap
    ensures var stop := StopFrom(n, start, self, cap, i);
      (stop == n || Checked(n, start, self, stop) == cap) &&
      forall j :: i <= j < stop ==> Checked(n, start, self, j) < cap
    decreases n - i
  {
    if i < n && Checked(n, start, self, i) < cap {
      StopFromIsFirst(n, start, self, cap, i + 1);
    }
  }

  /** The scan stops at the first offset where all `n` offsets are tried or
      `cap` molds are examined; it examines each mold at most once, never
      `self`, and at most `cap` of them. */
  lemma ScanVisitsOnce(n: nat, start: nat, self: nat, cap: nat)
    requires start < n
    ensures var stop := Stop(n, start, self, cap);
      (stop == n || Checked(n, start, self, stop) == cap) &&
      (forall j :: 0 <= j < stop ==> Checked(n, start, self, j) < cap) &&
      Checked(n, start, self, stop) <= cap
    ensures forall t1, t2 :: 0 <= t1 < t2 < Stop(n, start, self, cap) ==> Wrap(n, start, t1) != Wrap(n, start, t2)
  {
    StopFromIsFirst(n, start, self, cap, 0);
  }

  /** The offset at which the loop meets `self`. */
  function SelfOffset(n: nat, start: nat, self: nat): (t: nat)
    requires start < n && self < n
    ensures t < n && Wrap(n, start, t) == self
  {
    if self >= start then self - start else self + n - start
  }

  /** Every offset but the one at `self` is examined. */
  lemma {:induction false} CheckedCount(n: nat, start: nat, self: nat, i: nat)
    requires start < n && self < n && i <= n
    ensures Checked(n, start, self, i) == i - (if SelfOffset(n, start, self) < i then 1 else 0)
  {
    if i > 0 {
      CheckedCount(n, start, self, i - 1);
      if Wrap(n, start, i - 1) == self && SelfOffset(n, start, self) != i - 1 {
        WrapInjective(n, start, i - 1, SelfOffset(n, start, self));
      }
    }
  }

  // ---------------------------------------------------------------------
  // The density check

  /** The loop's `nearbyMolds` after offsets `0 .. i-1`. */
  function NearScan(pop: seq<Pos>, start: nat, self: nat, p: Pos, i: nat): (c: nat)
    requires start < |pop| && i <= |pop|
    ensures c <= Checked(|pop|, start, self, i)
  {
    if i == 0 then 0
    else
      var k := Wrap(|pop|, start, i - 1);
      NearScan(pop, start, self, p, i - 1) + (if k != self && Near(p, pop[k]) then 1 else 0)
  }

  lemma {:induction false} NearScanMono(pop: seq<Pos>, start: nat, self: nat, p: Pos, i: nat, j: nat)
    requires start < |pop| && i <= j <= |pop|
    ensures NearScan(pop, start, self, p, i) <= NearScan(pop, start, self, p, j)
    decreases j
  {
    if i < j {
      NearScanMono(pop, start, self, p, i, j - 1);
    }
  }

  /** One iteration of the density loop at offset `i`, which lands on `k`. */
  lemma DensityStep(pop: seq<Pos>, start: nat, self: nat, p: Pos, i: nat, k: nat)
    requires start < |pop| && i < |pop| && k == Wrap(|pop|, start, i)
    requires Checked(|pop|, start, self, i) < MaxDensityChecks
    ensures Checked(|pop|, start, self, i + 1) == Checked(|pop|, start, self, i) + (if k == self then 0 else 1)
    ensures StopFrom(|pop|, start, self, MaxDensityChecks, i + 1) == StopFrom(|pop|, start, self, MaxDensityChecks, i)
    ensures NearScan(pop, start, self, p, i + 1) ==
              NearScan(pop, start, self, p, i) + (if k != self && Near(p, pop[k]) then 1 else 0)
  {
  }

  /** What `checkDispersalBehavior` computes: `isDispersing` is set iff at
      least `MinClusterSize` of the (at most 50) examined molds are near.
      The early exit at the eighth neighbour only returns true sooner. */
  predicate Dense(pop: seq<Pos>, self: nat, start: nat, p: Pos)
    requires start < |pop|
    ensures Dense(pop, self, start, p) ==> |pop| >= MinClusterSize
  {
    NearScan(pop, start, self, p, Stop(|pop|, start, self, MaxDensityChecks)) >= MinClusterSize
  }

  method ScanDensity(pop: array<Pos>, self: nat, start: nat, p: Pos) returns (dispersing: bool)
    requires self < pop.Length && start < pop.Length
    ensures dispersing == Dense(pop[..], self, start, p)
  {
    var n := pop.Length;
    var nearbyMolds := 0;
    var checked := 0;
    var i := 0;
    while i < n && checked < MaxDensityChecks
      invariant 0 <= i <= n
      invariant checked == Checked(n, start, self, i)
      invariant StopFrom(n, start, self, MaxDensityChecks, i) == Stop(n, start, self, MaxDensityChecks)
      invariant nearbyMolds == NearScan(pop[..], start, self, p, i) < MinClusterSize
    {
      var index := (start + i) % n;
      WrapIsMod(n, start, i);
      DensityStep(pop[..], start, self, p, i, index);
      if index != self {
        checked := checked + 1;
        var other := pop[index];
        if DistSq(p, other) < RadiusSq {
          nearbyMolds := nearbyMolds + 1;
          if nearbyMolds >= MinClusterSize {
            NearScanMono(pop[..], start, self, p, i + 1, Stop(n, start, self, MaxDensityChecks));
            return true;
          }
        }
      }
      i := i + 1;
    }
    return false;
  }

  /** Molds other than `self` with index in `[lo, hi)` that are near `p`. */
  function CountNearIn(pop: seq<Pos>, self: nat, p: Pos, lo: nat, hi: nat): (c: nat)
    requires lo <= hi <= |pop|
    ensures c <= hi - lo
    decreases hi - lo
  {
    if lo == hi then 0
    else CountNearIn(pop, self, p, lo, hi - 1) + (if hi - 1 != self && Near(p, pop[hi - 1]) then 1 else 0)
  }

  lemma {:induction false} CountNearSplit(pop: seq<Pos>, self: nat, p: Pos, lo: nat, mid: nat, hi: nat)
    requires lo <= mid <= hi <= |pop|
    ensures CountNearIn(pop, self, p, lo, mid) + CountNearIn(pop, self, p, mid, hi) == CountNearIn(pop, self, p, lo, hi)
    decreases hi - mid
  {
    if mid < hi {
      CountNearSplit(pop, self, p, lo, mid, hi - 1);
    }
  }

  /** Before wrapping, the scan counts the range `[start, start + i)`. */
  lemma {:induction false} ScanCountsFirst(pop: seq<Pos>, self: nat, start: nat, p: Pos, i: nat)
    requires start < |pop| && start + i <= |pop|
    ensures NearScan(pop, start, self, p, i) == CountNearIn(pop, self, p, start, start + i)
  {
    if i > 0 {
      ScanCountsFirst(pop, self, start, p, i - 1);
    }
  }

  /** After wrapping, it adds the range `[0, start + i - n)`. */
  lemma {:induction false} ScanCountsWrapped(pop: seq<Pos>, self: nat, start: nat, p: Pos, i: nat)
    requires start < |pop| && |pop| <= start + i && i <= |pop|
    ensures NearScan(pop, start, self, p, i) ==
              CountNearIn(pop, self, p, start, |pop|) + CountNearIn(pop, self, p, 0, start + i - |pop|)
  {
    if start + i == |pop| {
      ScanCountsFirst(pop, self, start, p, i);
    } else {
      ScanCountsWrapped(pop, self, start, p, i - 1);
    }
  }

  /** Molds other than `self` near `p`, over the whole population. */
  function NearOthers(pop: seq<Pos>, self: nat, p: Pos): (c: nat)
    ensures c <= |pop|
  {
    CountNearIn(pop, self, p, 0, |pop|)
  }

  /** A full sweep counts every other mold near `p` exactly once. */
  lemma FullSweepCountsAll(pop: seq<Pos>, self: nat, start: nat, p: Pos)
    requires start < |pop|
    ensures NearScan(pop, start, self, p, |pop|) == NearOthers(pop, self, p)
  {
    ScanCountsWrapped(pop, self, start, p, |pop|);
    CountNearSplit(pop, self, p, 0, start, |pop|);
  }

  /** With at most `MaxDensityChecks + 1` molds nothing is cut off, so the
      check is exact: dispersal triggers iff at least 8 other molds are near. */
  lemma DenseIsExactForSmallPopulations(pop: seq<Pos>, self: nat, start: nat, p: Pos)
    requires self < |pop| && start < |pop| && |pop| <= MaxDensityChecks + 1
    ensures Dense(pop, self, start, p) <==> NearOthers(pop, self, p) >= MinClusterSize
  {
    var n := |pop|;
    var stop := Stop(n, start, self, MaxDensityChecks);
    ScanVisitsOnce(n, start, self, MaxDensityChecks);
    CheckedCount(n, start, self, stop);
    if stop < n {
      assert stop == n - 1 && Wrap(n, start, n - 1) == self;
    }
    assert NearScan(pop, start, self, p, stop) == NearScan(pop, start, self, p, n);
    FullSweepCountsAll(pop, self, start, p);
  }

  /** Whatever the population size, a mold that the capped scan finds dense
      does have at least `MinClusterSize` other molds near it. */
  lemma DenseImpliesCluster(pop: seq<Pos>, self: nat, start: nat, p: Pos)
    requires start < |pop|
    ensures Dense(pop, self, start, p) ==> NearOthers(pop, self, p) >= MinClusterSize
  {
    NearScanMono(pop, start, self, p, Stop(|pop|, start, self, MaxDensityChecks), |pop|);
    FullSweepCountsAll(pop, self, start, p);
  }

  /** A population of at most `MinClusterSize` molds never disperses. */
  lemma FewMoldsNeverDense(pop: seq<Pos>, self: nat, start: nat, p: Pos)
    requires self < |pop| && start < |pop| && |pop| <= MinClusterSize
    ensures !Dense(pop, self, start, p)
  {
    CheckedCount(|pop|, start, self, Stop(|pop|, start, self, MaxDensityChecks));
  }

  // ---------------------------------------------------------------------
  // The dispersal force

  /** The accumulators of `applyDispersalForce`. */
  datatype Force = Force(sumX: real, sumY: real, count: nat)

  /** The `sqrt` the force uses: a non-negative square root. */
  ghost predicate IsSqrt(sqrt: real -> real)
  {
    forall v :: v >= 0.0 ==> sqrt(v) >= 0.0 && Sq(sqrt(v)) == v
  }

  /** The loop's `(dispersalX, dispersalY, count)` after offsets `0 .. i-1`. */
  function ForceScan(pop: seq<Pos>, start: nat, self: nat, p: Pos, sqrt: real -> real, i: nat): (f: Force)
    requires start < |pop| && i <= |pop| && IsSqrt(sqrt)
    ensures f.count <= Checked(|pop|, start, self, i)
  {
    if i == 0 then Force(0.0, 0.0, 0)
    else
      var prev := ForceScan(pop, start, self, p, sqrt, i - 1);
      var k := Wrap(|pop|, start, i - 1);
      if k == self then prev else Push(prev, p, pop[k], sqrt)
  }

  /** What the loop of `applyDispersalForce` accumulates over the (at most
      20) examined molds. */
  function Repulsion(pop: seq<Pos>, self: nat, start: nat, p: Pos, sqrt: real -> real): (f: Force)
    requires start < |pop| && IsSqrt(sqrt)
    ensures f.count <= MaxForceChecks
  {
    ScanVisitsOnce(|pop|, start, self, MaxForceChecks);
    ForceScan(pop, start, self, p, sqrt, Stop(|pop|, start, self, MaxForceChecks))
  }

  /** The weight of the push at distance `d`: `map(d, 0, 25, 2, 0)`. */
  function Strength(d: real): real
  {
    MapRange(d, 0.0, DispersalRadius, DispersalStrength, 0.0)
  }

  /** Closer molds push harder: the weight falls as the distance grows. */
  lemma StrengthDecreasing(d1: real, d2: real)
    requires d1 <= d2
    ensures Strength(d2) <= Strength(d1)
  {
    assert Strength(d1) - Strength(d2) == DispersalStrength * (d2 - d1) / DispersalRadius;
  }

  /** The push of one repelling mold: the unit vector away from it,
      weighted by `Strength` of the distance. It points away from the
      other mold: it is parallel to `p - other` with a positive dot
      product. Its length is the weight, which lies strictly between 0 and 2. */
  function Away(p: Pos, other: Pos, sqrt: real -> real): (a: Pos)
    requires IsSqrt(sqrt) && Repels(p, other)
    ensures 0.0 < Norm2(a) < Sq(DispersalStrength)
    ensures Norm2(a) == Sq(Strength(Dist(sqrt, p, other)))
    ensures Cross(a, Diff(p, other)) == 0.0
    ensures Dot(a, Diff(p, other)) > 0.0
  {
    var distance := Dist(sqrt, p, other);
    DistanceInRange(sqrt, p, other);
    assert Sq(distance) == Norm2(Diff(p, other));
    UnitPush(Diff(p, other), distance, Strength(distance));
    PushAlong(Diff(p, other), distance, Strength(distance));
    PushPointsAway(Diff(p, other), distance, Strength(distance));
    Scaled(Diff(p, other), distance, Strength(distance))
  }

  /** The vector `p - q`. */
  function Diff(p: Pos, q: Pos): Pos
  {
    Pos(p.x - q.x, p.y - q.y)
  }

  function Dot(a: Pos, b: Pos): real
  {
    a.x * b.x + a.y * b.y
  }

  /** Zero exactly when `a` and `b` are parallel. */
  function Cross(a: Pos, b: Pos): real
  {
    a.x * b.y - a.y * b.x
  }

  /** The squared length. */
  function Norm2(a: Pos): real
  {
    Sq(a.x) + Sq(a.y)
  }

  /** `v / d * s`: for `d` the length of `v`, the vector of length `s` along `v`. */
  function Scaled(v: Pos, d: real, s: real): Pos
    requires d != 0.0
  {
    Pos(v.x / d * s, v.y / d * s)
  }

  /** `v / d * s` has dot product `s * d` with `v`, which is positive. */
  lemma PushPointsAway(v: Pos, d: real, s: real)
    requires d > 0.0 && Sq(d) == Norm2(v) && s > 0.0
    ensures Dot(Scaled(v, d, s), v) > 0.0
  {
    var u, w := v.x / d, v.y / d;
    assert u * d == v.x && w * d == v.y;
    var a := Scaled(v, d, s);
    assert a.x == u * s && a.y == w * s;
    var t := u * v.x + w * v.y;
    assert Dot(a, v) == s * t by {
      assert a.x * v.x == s * (u * v.x);
      assert a.y * v.y == s * (w * v.y);
    }
    calc {
      t * d;
      (u * v.x) * d + (w * v.y) * d;
      (u * d) * v.x + (w * d) * v.y;
      v.x * v.x + v.y * v.y;
      Norm2(v);
      d * d;
    }
    assert (t - d) * d == 0.0;
    assert t == d;
    MulPos(s, d);
  }

  /** A repelling mold is farther than 1 and nearer than the radius, so its
      weight lies strictly between 0 and `DispersalStrength`. */
  lemma DistanceInRange(sqrt: real -> real, p: Pos, other: Pos)
    requires IsSqrt(sqrt) && Repels(p, other)
    ensures 1.0 < Dist(sqrt, p, other) < DispersalRadius
    ensures 0.0 < Strength(Dist(sqrt, p, other)) < DispersalStrength
  {
    var d := Dist(sqrt, p, other);
    assert Sq(d) == DistSq(p, other) && d >= 0.0;
    if d <= 1.0 {
      SqMono(d, 1.0);
      assert false;
    }
    if d >= DispersalRadius {
      SqMono(DispersalRadius, d);
      assert false;
    }
    assert Strength(d) == DispersalStrength - DispersalStrength * d / DispersalRadius;
  }

  lemma SqMono(a: real, b: real)
    requires 0.0 <= a <= b
    ensures Sq(a) <= Sq(b)
  {
    assert a * a <= a * b <= b * b;
  }

  lemma MulPos(a: real, b: real)
    requires a > 0.0 && b > 0.0
    ensures a * b > 0.0
  {
  }

  lemma SqMul(a: real, b: real)
    ensures Sq(a * b) == Sq(a) * Sq(b)
  {
  }

  lemma SqLess(a: real, b: real)
    requires 0.0 < a < b
    ensures 0.0 < Sq(a) < Sq(b)
  {
    MulPos(a, a);
    MulPos(b - a, a);
    MulPos(b - a, b);
    var aa, ab, bb := a * a, a * b, b * b;
    assert aa < ab by { assert ab - aa == (b - a) * a; }
    assert ab < bb by { assert bb - ab == (b - a) * b; }
    assert Sq(a) == aa && Sq(b) == bb;
  }

  lemma CancelPos(x: real, q: real)
    requires q > 0.0 && x * q == q
    ensures x == 1.0
  {
  }

  /** `(dx, dy) / d * s` for `d` the length of `(dx, dy)`: its dot product
      with `(dx, dy)` is `s * d` and its squared length is `s * s`. */
  lemma UnitPush(vec: Pos, d: real, s: real)
    requires d > 0.0 && Sq(d) == Norm2(vec) && 0.0 < s < DispersalStrength
    ensures Norm2(Scaled(vec, d, s)) == Sq(s)
    ensures 0.0 < Norm2(Scaled(vec, d, s)) < Sq(DispersalStrength)
  {
    var dx, dy := vec.x, vec.y;
    var u, v := dx / d, dy / d;
    assert u * d == dx && v * d == dy;
    var q := Sq(d);
    SqLess(d, d + 1.0);
    SqMul(u, d);
    SqMul(v, d);
    var a, b := Sq(u), Sq(v);
    calc {
      (a + b) * q;
      a * q + b * q;
      Sq(dx) + Sq(dy);
      q;
    }
    CancelPos(a + b, q);
    SqMul(u, s);
    SqMul(v, s);
    assert Sq(u * s) + Sq(v * s) == (a + b) * Sq(s);
    SqLess(s, DispersalStrength);
    assert Norm2(Scaled(vec, d, s)) == Sq(u * s) + Sq(v * s);
  }

  /** Scaling `(dx, dy) / d` keeps it parallel to `(dx, dy)`. */
  lemma PushAlong(vec: Pos, d: real, s: real)
    requires d > 0.0
    ensures Cross(Scaled(vec, d, s), vec) == 0.0
  {
    var dx, dy := vec.x, vec.y;
    var u, v := dx / d, dy / d;
    assert u * d == dx && v * d == dy;
    assert (u * s) * dy == s * (u * (v * d));
    assert (v * s) * dx == s * (v * (u * d));
    assert Cross(Scaled(vec, d, s), vec) == (u * s) * dy - (v * s) * dx;
  }

  /** One iteration: a repelling mold adds its push and is counted. */
  function Push(f: Force, p: Pos, other: Pos, sqrt: real -> real): (g: Force)
    requires IsSqrt(sqrt)
    ensures Repels(p, other) ==> g.count == f.count + 1
    ensures Repels(p, other) ==> g.sumX == f.sumX + Away(p, other, sqrt).x && g.sumY == f.sumY + Away(p, other, sqrt).y
    ensures !Repels(p, other) ==> g == f
  {
    if Repels(p, other) then
      var away := Away(p, other, sqrt);
      Force(f.sumX + away.x, f.sumY + away.y, f.count + 1)
    else
      f
  }

  /** The force has no contributor exactly when no examined mold repels. */
  lemma {:induction false} ForceCountZero(pop: seq<Pos>, start: nat, self: nat, p: Pos, sqrt: real -> real, i: nat)
    requires start < |pop| && i <= |pop| && IsSqrt(sqrt)
    ensures ForceScan(pop, start, self, p, sqrt, i).count == 0 <==>
              forall t :: 0 <= t < i && Wrap(|pop|, start, t) != self ==> !Repels(p, pop[Wrap(|pop|, start, t)])
  {
    if i > 0 {
      ForceCountZero(pop, start, self, p, sqrt, i - 1);
    }
  }

  /** The `while`-loops' normal form: subtract 360 while above 180 ... */
  function WrapDown(d: real): (r: real)
    ensures r <= 180.0
    ensures d <= 180.0 ==> r == d
    ensures d > 180.0 ==> r > -180.0
    decreases if d > 180.0 then d.Floor else 0
  {
    if d > 180.0 then WrapDown(d - 360.0) else d
  }

  /** ... then add 360 while below -180. */
  function WrapUp(d: real): (r: real)
    ensures r >= -180.0
    ensures d >= -180.0 ==> r == d
    ensures d < -180.0 ==> r < 180.0
    decreases if d < -180.0 then (-d).Floor else 0
  {
    if d < -180.0 then WrapUp(d + 360.0) else d
  }

  /** The normalised heading difference: in [-180, 180], unchanged when
      already there; 180 is kept and -180 is reached only from below. */
  function NormalizeDiff(d: real): (r: real)
    ensures -180.0 <= r <= 180.0
    ensures -180.0 <= d <= 180.0 ==> r == d
    ensures d > 180.0 ==> r > -180.0
    ensures d < -180.0 ==> r < 180.0
  {
    WrapUp(WrapDown(d))
  }

  function Turns(k: int): real
  {
    360.0 * k as real
  }

  /** Normalising never changes the angle: it adds whole turns. */
  lemma {:induction false} NormalizeDiffIsWholeTurns(d: real) returns (k: int)
    ensures NormalizeDiff(d) == d + Turns(k)
  {
    var down := WrapDownTurns(d);
    var up := WrapUpTurns(WrapDown(d));
    k := up as int - down as int;
  }

  lemma {:induction false} WrapDownTurns(d: real) returns (k: nat)
    ensures WrapDown(d) == d - Turns(k)
    decreases if d > 180.0 then d.Floor else 0
  {
    if d > 180.0 {
      var k' := WrapDownTurns(d - 360.0);
      k := k' + 1;
    } else {
      k := 0;
    }
  }

  lemma {:induction false} WrapUpTurns(d: real) returns (k: nat)
    ensures WrapUp(d) == d + Turns(k)
    decreases if d < -180.0 then (-d).Floor else 0
  {
    if d < -180.0 {
      var k' := WrapUpTurns(d + 360.0);
      k := k' + 1;
    } else {
      k := 0;
    }
  }

  /** The two `while` loops of `applyDispersalForce`. */
  method NormalizeAngle(d: real) returns (headingDiff: real)
    ensures headingDiff == NormalizeDiff(d)
  {
    headingDiff := d;
    while headingDiff > 180.0
      invariant WrapDown(headingDiff) == WrapDown(d)
      decreases headingDiff.Floor
    {
      headingDiff := headingDiff - 360.0;
    }
    while headingDiff < -180.0
      invariant WrapUp(headingDiff) == WrapUp(WrapDown(d))
      decreases (-headingDiff).Floor
    {
      headingDiff := headingDiff + 360.0;
    }
  }

  /** The heading after `applyDispersalForce`: unchanged with no repelling
      neighbour, otherwise turned a fifth of the way towards the average
      push, so by at most 36 degrees. */
  function ForceHeading(heading: real, f: Force, atan2: (real, real) -> real): (h: real)
    ensures f.count == 0 ==> h == heading
    ensures heading - Smoothing * 180.0 <= h <= heading + Smoothing * 180.0
  {
    if f.count == 0 then heading
    else
      var dispersalHeading := atan2(f.sumY / f.count as real, f.sumX / f.count as real);
      heading + NormalizeDiff(dispersalHeading - heading) * Smoothing
  }

  /** The accumulators over the examined molds of `applyDispersalForce`. */
  method ScanForce(pop: array<Pos>, self: nat, start: nat, p: Pos, sqrt: real -> real) returns (f: Force)
    requires self < pop.Length && start < pop.Length && IsSqrt(sqrt)
    ensures f == Repulsion(pop[..], self, start, p, sqrt)
  {
    var n := pop.Length;
    var dispersalX, dispersalY := 0.0, 0.0;
    var count := 0;
    var checked := 0;
    var i := 0;
    while i < n && checked < MaxForceChecks
      invariant 0 <= i <= n
      invariant checked == Checked(n, start, self, i)
      invariant StopFrom(n, start, self, MaxForceChecks, i) == Stop(n, start, self, MaxForceChecks)
      invariant Force(dispersalX, dispersalY, count) == ForceScan(pop[..], start, self, p, sqrt, i)
    {
      var index := (start + i) % n;
      WrapIsMod(n, start, i);
      if index != self {
        ghost var acc := Force(dispersalX, dispersalY, count);
        checked := checked + 1;
        var other := pop[index];
        var distSq := DistSq(p, other);
        if distSq < RadiusSq && distSq > 1.0 {
          var away := Away(p, other, sqrt);
          dispersalX := dispersalX + away.x;
          dispersalY := dispersalY + away.y;
          count := count + 1;
        }
        assert Force(dispersalX, dispersalY, count) == Push(acc, p, other, sqrt);
      }
      i := i + 1;
    }
    f := Force(dispersalX, dispersalY, count);
  }

  /** With no repelling mold among the examined ones the heading is kept. */
  lemma NoRepellerKeepsHeading(pop: seq<Pos>, self: nat, start: nat, p: Pos, heading: real,
                               sqrt: real -> real, atan2: (real, real) -> real)
    requires self < |pop| && start < |pop| && IsSqrt(sqrt)
    requires forall k :: 0 <= k < |pop| && k != self ==> !Repels(p, pop[k])
    ensures ForceHeading(heading, Repulsion(pop, self, start, p, sqrt), atan2) == heading
  {
    ForceCountZero(pop, start, self, p, sqrt, Stop(|pop|, start, self, MaxForceChecks));
  }
}
