/**
 * The simulation thread of src/main.rs (`sim`): particle state packed into
 * 32-wide lanes, the grid layout of the initial positions, the per-lane
 * physics tick (gravity, integration, clamping, bouncing), the extraction of
 * a snapshot in particle-index order, and the pacing delay.
 *
 * `f32` is modelled as `real`; one `f32x32` vector is a `Lane`, a sequence of
 * 32 reals, and each SIMD operation the tick uses is a lane-wise function.
 */
module Sim {
  import opened Numeric

  // ---------------------------------------------------------------------------
  // Constants of `sim`
  // ---------------------------------------------------------------------------

  const COUNT: nat := 1000
  const SIMD_LEVEL: nat := 32
  /** The lane loops run `0..COUNT / SIMD_LEVEL`: 31 lanes, i.e. 992 particles. */
  const LANES: nat := COUNT / SIMD_LEVEL
  /** Each lane vector is allocated with `COUNT / SIMD_LEVEL + 1` lanes. */
  const ALLOCATED: nat := LANES + 1
  const SPACING: real := 2.0
  const BOUNDS_X: real := 1000.0
  const BOUNDS_Y: real := 1000.0
  const BOUNCE: real := -0.8
  /** The source splats `-0.0`, which equals zero. */
  const GRAVITY: real := 0.0
  const DT: real := 0.1
  /** The frame budget, `Duration::from_millis(16)`, in nanoseconds. */
  const FRAME_BUDGET: nat := 16_000_000

  /** `usize::isqrt`: the largest natural whose square does not exceed `n`. */
  function Isqrt(n: nat): (r: nat)
    ensures r * r <= n < (r + 1) * (r + 1)
  {
    if n == 0 then 0
    else
      var s := Isqrt(n - 1);
      if (s + 1) * (s + 1) <= n then s + 1 else s
  }

  const GRID_SIZE: nat := Isqrt(COUNT)

  /** `a <= b` scales: `a * c <= b * c`. */
  lemma {:induction false} MulMonotone(a: nat, b: nat, c: nat)
    requires a <= b
    ensures a * c <= b * c
  {
    if c > 0 {
      MulMonotone(a, b, c - 1);
    }
  }

  /** Squaring is monotone on the naturals. */
  lemma SquareMonotone(a: nat, b: nat)
    requires a <= b
    ensures a * a <= b * b
  {
    MulMonotone(a, b, a);
    MulMonotone(a, b, b);
  }

  lemma GridSizeValue()
    ensures GRID_SIZE == 31
  {
    var g := GRID_SIZE;
    if g <= 30 {
      SquareMonotone(g + 1, 31);
    } else if g >= 32 {
      SquareMonotone(32, g);
    }
  }

  // ---------------------------------------------------------------------------
  // Lanes and the SIMD operations the tick uses
  // ---------------------------------------------------------------------------

  /** One `f32x32` vector. */
  type Lane = s: seq<real> | |s| == SIMD_LEVEL witness seq(32, _ => 0.0)

  /** One `mask32` vector, the result of a lane-wise comparison. */
  type Mask = s: seq<bool> | |s| == SIMD_LEVEL witness seq(32, _ => false)

  function Splat(v: real): Lane {
    seq(SIMD_LEVEL, _ => v)
  }

  function LaneAdd(a: Lane, b: Lane): Lane {
    seq(SIMD_LEVEL, j requires 0 <= j < SIMD_LEVEL => a[j] + b[j])
  }

  function LaneMul(a: Lane, b: Lane): Lane {
    seq(SIMD_LEVEL, j requires 0 <= j < SIMD_LEVEL => a[j] * b[j])
  }

  /** `simd_min` */
  function LaneMin(a: Lane, b: Lane): Lane {
    seq(SIMD_LEVEL, j requires 0 <= j < SIMD_LEVEL => if a[j] <= b[j] then a[j] else b[j])
  }

  /** `simd_max` */
  function LaneMax(a: Lane, b: Lane): Lane {
    seq(SIMD_LEVEL, j requires 0 <= j < SIMD_LEVEL => if a[j] >= b[j] then a[j] else b[j])
  }

  /** `simd_gt` */
  function LaneGt(a: Lane, b: Lane): Mask {
    seq(SIMD_LEVEL, j requires 0 <= j < SIMD_LEVEL => a[j] > b[j])
  }

  /** `simd_lt` */
  function LaneLt(a: Lane, b: Lane): Mask {
    seq(SIMD_LEVEL, j requires 0 <= j < SIMD_LEVEL => a[j] < b[j])
  }

  /** `Mask::select`: `a` where the mask is set, `b` elsewhere. */
  function Select(m: Mask, a: Lane, b: Lane): Lane {
    seq(SIMD_LEVEL, j requires 0 <= j < SIMD_LEVEL => if m[j] then a[j] else b[j])
  }

  // ---------------------------------------------------------------------------
  // The per-particle reference: what one tick does to one particle
  // ---------------------------------------------------------------------------

  datatype Particle = Particle(x: real, y: real, xVel: real, yVel: real)

  /** Gravity on the y velocity, then explicit Euler integration of the position. */
  function Integrate(p: Particle): Particle {
    var yVel := p.yVel + GRAVITY * DT;
    Particle(p.x + p.xVel * DT, p.y + yVel * DT, p.xVel, yVel)
  }

  /** `v.simd_min(hi).simd_max(lo)` on one entry. */
  function Clamp(v: real, lo: real, hi: real): real {
    var m := if v <= hi then v else hi;
    if m >= lo then m else lo
  }

  function BounceFactor(fired: bool): real {
    if fired then BOUNCE else 1.0
  }

  /** The velocity times one factor per mask, each mask taken on the position before clamping. */
  function Reflect(vel: real, pos: real, lo: real, hi: real): real {
    vel * BounceFactor(pos > hi) * BounceFactor(pos < lo)
  }

  /** The boundary step: clamp the position, bounce the velocity. */
  function Constrain(p: Particle): (r: Particle)
    ensures InBounds(r)
    ensures InBounds(p) ==> r == p
  {
    Particle(
      Clamp(p.x, -BOUNDS_X, BOUNDS_X), Clamp(p.y, -BOUNDS_Y, BOUNDS_Y),
      Reflect(p.xVel, p.x, -BOUNDS_X, BOUNDS_X), Reflect(p.yVel, p.y, -BOUNDS_Y, BOUNDS_Y))
  }

  /** One tick of one particle. */
  function Step(p: Particle): Particle {
    Constrain(Integrate(p))
  }

  predicate InBounds(p: Particle) {
    -BOUNDS_X <= p.x <= BOUNDS_X && -BOUNDS_Y <= p.y <= BOUNDS_Y
  }

  function Abs(v: real): real {
    if v < 0.0 then -v else v
  }

  /** After a tick every particle lies inside the bounds, whatever it did before. */
  lemma StepWithinBounds(p: Particle)
    ensures InBounds(Step(p))
  {
  }

  /** Clamping moves a value only when it is outside the range, and then onto the bound it crossed. */
  lemma ClampMeaning(v: real, lo: real, hi: real)
    requires lo < hi
    ensures lo <= Clamp(v, lo, hi) <= hi
    ensures Clamp(v, lo, hi) == if v > hi then hi else if v < lo then lo else v
  {
  }

  /**
   * With `lo < hi` at most one of the two masks fires: the velocity is
   * multiplied by the bounce factor exactly when the position is outside
   * the range, and keeps its value otherwise.
   */
  lemma ReflectFiresOnExit(vel: real, pos: real, lo: real, hi: real)
    requires lo < hi
    ensures Reflect(vel, pos, lo, hi) == if pos > hi || pos < lo then BOUNCE * vel else vel
    ensures !(pos > hi && pos < lo)
  {
  }

  /** The velocity after a tick, per axis, against the integrated (pre-clamp) position. */
  lemma StepReflection(p: Particle)
    ensures var q := Integrate(p);
      Step(p).xVel == (if q.x > BOUNDS_X || q.x < -BOUNDS_X then BOUNCE * q.xVel else q.xVel) &&
      Step(p).yVel == (if q.y > BOUNDS_Y || q.y < -BOUNDS_Y then BOUNCE * q.yVel else q.yVel)
  {
    var q := Integrate(p);
    ReflectFiresOnExit(q.xVel, q.x, -BOUNDS_X, BOUNDS_X);
    ReflectFiresOnExit(q.yVel, q.y, -BOUNDS_Y, BOUNDS_Y);
  }

  /** A bounce keeps 80% of the speed on that axis; without one the speed is kept. */
  lemma BounceLosesSpeed(p: Particle)
    ensures var q := Integrate(p);
      Abs(Step(p).xVel) == (if q.x > BOUNDS_X || q.x < -BOUNDS_X then 0.8 * Abs(q.xVel) else Abs(q.xVel)) &&
      Abs(Step(p).yVel) == (if q.y > BOUNDS_Y || q.y < -BOUNDS_Y then 0.8 * Abs(q.yVel) else Abs(q.yVel))
  {
    StepReflection(p);
  }

  /** A particle whose integrated position is inside the bounds passes the boundary step untouched. */
  lemma StepInsideUnchanged(p: Particle)
    requires InBounds(Integrate(p))
    ensures Step(p) == Integrate(p)
  {
    StepReflection(p);
  }

  /** With zero gravity the motion before the boundary step is linear and the velocity is unchanged. */
  lemma IntegrateIsLinear(p: Particle)
    ensures Integrate(p) == Particle(p.x + p.xVel * DT, p.y + p.yVel * DT, p.xVel, p.yVel)
  {
  }

  /**
   * The body of the physics loop on one lane, written with the lane-wise
   * operations in the source's order: gravity, integration, the four masks on
   * the integrated position, the clamp, and the two bounce factors per axis.
   */
  function TickLane(x: Lane, y: Lane, xVel: Lane, yVel: Lane): (Lane, Lane, Lane, Lane) {
    var yVel1 := LaneAdd(yVel, LaneMul(Splat(GRAVITY), Splat(DT)));
    var x1 := LaneAdd(x, LaneMul(xVel, Splat(DT)));
    var y1 := LaneAdd(y, LaneMul(yVel1, Splat(DT)));
    var xGtMax := LaneGt(x1, Splat(BOUNDS_X));
    var xLtMin := LaneLt(x1, Splat(-BOUNDS_X));
    var yGtMax := LaneGt(y1, Splat(BOUNDS_Y));
    var yLtMin := LaneLt(y1, Splat(-BOUNDS_Y));
    var bounceFactor := Splat(BOUNCE);
    (LaneMax(LaneMin(x1, Splat(BOUNDS_X)), Splat(-BOUNDS_X)),
     LaneMax(LaneMin(y1, Splat(BOUNDS_Y)), Splat(-BOUNDS_Y)),
     LaneMul(LaneMul(xVel, Select(xGtMax, bounceFactor, Splat(1.0))), Select(xLtMin, bounceFactor, Splat(1.0))),
     LaneMul(LaneMul(yVel1, Select(yGtMax, bounceFactor, Splat(1.0))), Select(yLtMin, bounceFactor, Splat(1.0))))
  }

  /**
   * Slot `j` of a lane after `TickLane` is the per-particle `Step` of slot `j`
   * before it: the vectorised tick computes, slot by slot, what the scalar
   * tick computes, and no slot depends on another.
   */
  lemma TickLaneMatchesStep(x: Lane, y: Lane, xVel: Lane, yVel: Lane, j: nat)
    requires j < SIMD_LEVEL
    ensures var t := TickLane(x, y, xVel, yVel);
      Particle(t.0[j], t.1[j], t.2[j], t.3[j]) == Step(Particle(x[j], y[j], xVel[j], yVel[j]))
  {
  }

  // ---------------------------------------------------------------------------
  // The grid layout of the initial positions
  // ---------------------------------------------------------------------------

  /** Particle `index` sits in row `index / GRID_SIZE`, column `index % GRID_SIZE`. */
  function GridCell(index: nat): (nat, nat) {
    GridSizeValue();
    (index / GRID_SIZE, index % GRID_SIZE)
  }

  /** The centred x coordinate of the column, spaced `SPACING` apart. */
  function GridX(index: nat): real {
    ((GridCell(index).1 as real) - GRID_SIZE as real / 2.0) * SPACING
  }

  function GridY(index: nat): real {
    ((GridCell(index).0 as real) - GRID_SIZE as real / 2.0) * SPACING
  }

  /** The initial x coordinate in a lane slot: the grid x of a particle, zero past the last particle. */
  function GridXSlot(index: nat): real {
    if index < COUNT then GridX(index) else 0.0
  }

  function GridYSlot(index: nat): real {
    if index < COUNT then GridY(index) else 0.0
  }

  /** Lane `i` of the initial x positions: slot `j` holds the x slot value of index `i * SIMD_LEVEL + j`. */
  function GridXLane(i: nat): Lane {
    seq(SIMD_LEVEL, j requires 0 <= j < SIMD_LEVEL => GridXSlot(i * SIMD_LEVEL + j))
  }

  function GridYLane(i: nat): Lane {
    seq(SIMD_LEVEL, j requires 0 <= j < SIMD_LEVEL => GridYSlot(i * SIMD_LEVEL + j))
  }

  /** A lane whose slots agree with the slot values is the grid lane. */
  lemma GridLaneBySlots(i: nat, xs: Lane, ys: Lane)
    requires forall j :: 0 <= j < SIMD_LEVEL ==>
      xs[j] == GridXSlot(i * SIMD_LEVEL + j) && ys[j] == GridYSlot(i * SIMD_LEVEL + j)
    ensures xs == GridXLane(i) && ys == GridYLane(i)
  {
    assert forall j :: 0 <= j < SIMD_LEVEL ==> GridXLane(i)[j] == xs[j];
    assert forall j :: 0 <= j < SIMD_LEVEL ==> GridYLane(i)[j] == ys[j];
  }

  /** Distinct particles start in distinct grid cells, hence at distinct positions. */
  lemma {:induction false} GridLayoutInjective(m: nat, n: nat)
    requires m != n
    ensures GridCell(m) != GridCell(n)
    ensures (GridX(m), GridY(m)) != (GridX(n), GridY(n))
  {
    GridSizeValue();
    assert m == (m / GRID_SIZE) * GRID_SIZE + m % GRID_SIZE;
    assert n == (n / GRID_SIZE) * GRID_SIZE + n % GRID_SIZE;
  }

  /** Every particle the grid layout places starts well inside the bounds. */
  lemma GridWithinBounds(index: nat)
    requires index < COUNT
    ensures InBounds(Particle(GridX(index), GridY(index), 0.0, 0.0))
  {
    GridSizeValue();
    assert index / GRID_SIZE <= index;
  }

  // ---------------------------------------------------------------------------
  // Lane layout
  // ---------------------------------------------------------------------------

  /** Particle `i * SIMD_LEVEL + j` lives in lane `i`, slot `j`, and every index splits that way. */
  lemma LaneSlot(i: nat, j: nat)
    requires j < SIMD_LEVEL
    ensures (i * SIMD_LEVEL + j) / SIMD_LEVEL == i && (i * SIMD_LEVEL + j) % SIMD_LEVEL == j
  {
  }

  /** The InstanceData pushed for one particle. */
  datatype InstanceData = InstanceData(x: real, y: real)

  /** The pacing sleep: `16 ms - elapsed`, saturating at zero. */
  function SleepDuration(elapsed: nat): (sleep: nat)
    ensures sleep <= FRAME_BUDGET
    ensures elapsed < FRAME_BUDGET ==> elapsed + sleep == FRAME_BUDGET
    ensures elapsed >= FRAME_BUDGET ==> sleep == 0
  {
    if elapsed >= FRAME_BUDGET then 0 else FRAME_BUDGET - elapsed
  }

  // ---------------------------------------------------------------------------
  // The lane vectors of `sim`, updated in place
  // ---------------------------------------------------------------------------

  class Particles {
    var x: array<Lane>
    var y: array<Lane>
    var xVel: array<Lane>
    var yVel: array<Lane>

    /** Four distinct vectors of `ALLOCATED` lanes each. */
    ghost predicate Valid()
      reads this
    {
      x.Length == ALLOCATED && y.Length == ALLOCATED &&
      xVel.Length == ALLOCATED && yVel.Length == ALLOCATED &&
      x != y && x != xVel && x != yVel && y != xVel && y != yVel && xVel != yVel
    }

    /** Lane `i`, slot `j`, as one particle. */
    ghost function At(i: nat, j: nat): Particle
      reads this, x, y, xVel, yVel
      requires Valid() && i < ALLOCATED && j < SIMD_LEVEL
    {
      Particle(x[i][j], y[i][j], xVel[i][j], yVel[i][j])
    }

    /** `vec![f32x32::splat(0.0); COUNT / SIMD_LEVEL + 1]`, four times. */
    constructor ()
      ensures Valid()
      ensures fresh(x) && fresh(y) && fresh(xVel) && fresh(yVel)
      ensures forall i, j :: 0 <= i < ALLOCATED && 0 <= j < SIMD_LEVEL ==>
        At(i, j) == Particle(0.0, 0.0, 0.0, 0.0)
    {
      x := new Lane[ALLOCATED](_ => Splat(0.0));
      y := new Lane[ALLOCATED](_ => Splat(0.0));
      xVel := new Lane[ALLOCATED](_ => Splat(0.0));
      yVel := new Lane[ALLOCATED](_ => Splat(0.0));
    }

    /** The grid positions of lane `i`, built in the scratch arrays of lines 48-61. */
    static method GridLane(i: nat) returns (xs: Lane, ys: Lane)
      ensures xs == GridXLane(i) && ys == GridYLane(i)
    {
      GridSizeValue();
      var base := i * SIMD_LEVEL;
      var xValues := new real[SIMD_LEVEL](_ => 0.0);
      var yValues := new real[SIMD_LEVEL](_ => 0.0);
      for j := 0 to SIMD_LEVEL
        invariant forall j' :: 0 <= j' < j ==> xValues[j'] == GridXSlot(base + j') && yValues[j'] == GridYSlot(base + j')
        invariant forall j' :: j <= j' < SIMD_LEVEL ==> xValues[j'] == 0.0 && yValues[j'] == 0.0
      {
        var index := base + j;
        if index < COUNT {
          var row := index / GRID_SIZE;
          var col := index % GRID_SIZE;
          xValues[j] := (col as real - GRID_SIZE as real / 2.0) * SPACING;
          yValues[j] := (row as real - GRID_SIZE as real / 2.0) * SPACING;
        }
      }
      xs, ys := xValues[..], yValues[..];
      GridLaneBySlots(i, xs, ys);
    }

    /**
     * Lays the first `lanes` lanes out on the grid (lines 47-65). The source
     * runs this with `lanes == LANES`. Later lanes keep their value.
     */
    method InitPositions(lanes: nat)
      requires Valid() && lanes <= ALLOCATED
      modifies x, y
      ensures Valid()
      ensures forall i :: 0 <= i < lanes ==> x[i] == GridXLane(i) && y[i] == GridYLane(i)
      ensures forall i :: lanes <= i < ALLOCATED ==> x[i] == old(x[i]) && y[i] == old(y[i])
    {
      for i := 0 to lanes
        invariant forall i' :: 0 <= i' < i ==> x[i'] == GridXLane(i') && y[i'] == GridYLane(i')
        invariant forall i' :: i <= i' < ALLOCATED ==> x[i'] == old(x[i']) && y[i'] == old(y[i'])
      {
        var xs, ys := GridLane(i);
        x[i] := xs;
        y[i] := ys;
      }
    }

    /**
     * Fills the velocities of the first `lanes` lanes from the generator's
     * draws, taken in the source's order: for each slot an x draw, then a y
     * draw. The source runs this with `lanes == LANES`.
     */
    method InitVelocities(lanes: nat, draws: seq<real>)
      requires Valid() && lanes <= ALLOCATED
      requires |draws| == 2 * lanes * SIMD_LEVEL
      requires forall k :: 0 <= k < |draws| ==> -1.0 <= draws[k] < 1.0
      modifies xVel, yVel
      ensures Valid()
      ensures forall i, j :: 0 <= i < lanes && 0 <= j < SIMD_LEVEL ==>
        xVel[i][j] == draws[2 * (i * SIMD_LEVEL + j)] && yVel[i][j] == draws[2 * (i * SIMD_LEVEL + j) + 1]
      ensures forall i, j :: 0 <= i < lanes && 0 <= j < SIMD_LEVEL ==>
        -1.0 <= xVel[i][j] < 1.0 && -1.0 <= yVel[i][j] < 1.0
      ensures forall i :: lanes <= i < ALLOCATED ==> xVel[i] == old(xVel[i]) && yVel[i] == old(yVel[i])
    {
      var next := 0;
      for i := 0 to lanes
        invariant next == 2 * i * SIMD_LEVEL
        invariant forall i', j :: 0 <= i' < i && 0 <= j < SIMD_LEVEL ==>
          xVel[i'][j] == draws[2 * (i' * SIMD_LEVEL + j)] && yVel[i'][j] == draws[2 * (i' * SIMD_LEVEL + j) + 1]
        invariant forall i' :: i <= i' < ALLOCATED ==> xVel[i'] == old(xVel[i']) && yVel[i'] == old(yVel[i'])
      {
        var xValues := new real[SIMD_LEVEL](_ => 0.0);
        var yValues := new real[SIMD_LEVEL](_ => 0.0);
        for j := 0 to SIMD_LEVEL
          modifies xValues, yValues
          invariant next == 2 * (i * SIMD_LEVEL + j)
          invariant forall j' :: 0 <= j' < j ==>
            xValues[j'] == draws[2 * (i * SIMD_LEVEL + j')] && yValues[j'] == draws[2 * (i * SIMD_LEVEL + j') + 1]
        {
          xValues[j] := draws[next] * 1.0;
          yValues[j] := draws[next + 1] * 1.0;
          next := next + 2;
        }
        xVel[i] := xValues[..];
        yVel[i] := yValues[..];
      }
    }

    /**
     * One frame of physics: `TickLane` on each of the first `lanes` lanes, in
     * place. Every updated particle ends where the per-particle `Step` puts it;
     * later lanes are not touched. The source runs this with `lanes == LANES`.
     */
    method Tick(lanes: nat)
      requires Valid() && lanes <= ALLOCATED
      modifies x, y, xVel, yVel
      ensures Valid()
      ensures forall i, j :: 0 <= i < lanes && 0 <= j < SIMD_LEVEL ==> At(i, j) == Step(old(At(i, j)))
      ensures forall i :: lanes <= i < ALLOCATED ==>
        x[i] == old(x[i]) && y[i] == old(y[i]) && xVel[i] == old(xVel[i]) && yVel[i] == old(yVel[i])
    {
      for i := 0 to lanes
        invariant forall i', j :: 0 <= i' < i && 0 <= j < SIMD_LEVEL ==> At(i', j) == Step(old(At(i', j)))
        invariant forall i' :: i <= i' < ALLOCATED ==>
          x[i'] == old(x[i']) && y[i'] == old(y[i']) && xVel[i'] == old(xVel[i']) && yVel[i'] == old(yVel[i'])
      {
        var lane := TickLane(x[i], y[i], xVel[i], yVel[i]);
        forall j | 0 <= j < SIMD_LEVEL
          ensures Particle(lane.0[j], lane.1[j], lane.2[j], lane.3[j]) == Step(At(i, j))
        {
          TickLaneMatchesStep(x[i], y[i], xVel[i], yVel[i], j);
        }
        x[i], y[i], xVel[i], yVel[i] := lane.0, lane.1, lane.2, lane.3;
      }
    }

    /**
     * The snapshot handed to the renderer: the positions of the particles in
     * the first `lanes` lanes, in particle-index order, stopping at `COUNT`.
     */
    method Snapshot(lanes: nat) returns (instances: seq<InstanceData>)
      requires Valid() && lanes <= ALLOCATED
      ensures |instances| == Min(lanes * SIMD_LEVEL, COUNT)
      ensures forall k :: 0 <= k < |instances| ==>
        instances[k] == InstanceData(x[k / SIMD_LEVEL][k % SIMD_LEVEL], y[k / SIMD_LEVEL][k % SIMD_LEVEL])
    {
      instances := [];
      for i := 0 to lanes
        invariant |instances| == Min(i * SIMD_LEVEL, COUNT)
        invariant forall k :: 0 <= k < |instances| ==>
          instances[k] == InstanceData(x[k / SIMD_LEVEL][k % SIMD_LEVEL], y[k / SIMD_LEVEL][k % SIMD_LEVEL])
      {
        var xArray := x[i];
        var yArray := y[i];
        for j := 0 to SIMD_LEVEL
          invariant |instances| == Min(i * SIMD_LEVEL + j, COUNT)
          invariant forall k :: 0 <= k < |instances| ==>
            instances[k] == InstanceData(x[k / SIMD_LEVEL][k % SIMD_LEVEL], y[k / SIMD_LEVEL][k % SIMD_LEVEL])
        {
          var index := i * SIMD_LEVEL + j;
          if index < COUNT {
            LaneSlot(i, j);
            instances := instances + [InstanceData(xArray[j], yArray[j])];
          }
        }
      }
    }

    /**
     * One iteration of the frame loop as the source runs it, over `LANES`
     * lanes: only 992 of the `COUNT` particles are moved and published.
     */
    method Frame() returns (instances: seq<InstanceData>)
      requires Valid()
      modifies x, y, xVel, yVel
      ensures Valid()
      ensures forall i, j :: 0 <= i < LANES && 0 <= j < SIMD_LEVEL ==> At(i, j) == Step(old(At(i, j)))
      ensures forall i :: LANES <= i < ALLOCATED ==>
        x[i] == old(x[i]) && y[i] == old(y[i]) && xVel[i] == old(xVel[i]) && yVel[i] == old(yVel[i])
      ensures |instances| == LANES * SIMD_LEVEL < COUNT
      ensures forall k :: 0 <= k < |instances| ==>
        var p := Step(old(At(k / SIMD_LEVEL, k % SIMD_LEVEL)));
        instances[k] == InstanceData(p.x, p.y)
    {
      Tick(LANES);
      instances := Snapshot(LANES);
    }

    /**
     * One iteration of the frame loop over every allocated lane, which the
     * spare lane and the `index < COUNT` guards were evidently meant for: all
     * `COUNT` particles are moved and published.
     */
    method FrameAll() returns (instances: seq<InstanceData>)
      requires Valid()
      modifies x, y, xVel, yVel
      ensures Valid()
      ensures forall i, j :: 0 <= i < ALLOCATED && 0 <= j < SIMD_LEVEL ==> At(i, j) == Step(old(At(i, j)))
      ensures |instances| == COUNT
      ensures forall k :: 0 <= k < |instances| ==>
        var p := Step(old(At(k / SIMD_LEVEL, k % SIMD_LEVEL)));
        instances[k] == InstanceData(p.x, p.y)
    {
      Tick(ALLOCATED);
      instances := Snapshot(ALLOCATED);
    }
  }
}
