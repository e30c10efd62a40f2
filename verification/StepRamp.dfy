/** The step planner of lib/autolee_logic/step_ramp.h.

    A ramp advances one step per call. Speed changes by a constant acceleration per
    unit time, so the SQUARE of the speed changes by a constant `twoA` per step; the
    planner's own state is `v`, and the specification below keeps `v2 == v * v`.
    Floats are modelled as reals. */
module StepRampModel {
  import opened Numbers

  /** `pos` after the steps yielded so far, `dir` is +1 / -1 while moving and 0 at
      rest, `v2` is the squared speed at `pos`. */
  datatype Ramp = Ramp(pos: int, dir: int, v2: real)
  {
    predicate Valid() {
      -1 <= dir <= 1 && v2 >= 0.0
    }

    predicate Resting() {
      dir == 0 || v2 <= 0.0
    }
  }

  /** Rested: the call yielded no step. Stepped: it yielded one. */
  datatype Move = Rested(ramp: Ramp) | Stepped(ramp: Ramp)

  function Sign(x: int): int {
    if x > 0 then 1 else if x < 0 then -1 else 0
  }

  function Ceil(x: real): int {
    -((-x).Floor)
  }

  /** The square of a speed, named so that proofs compare squares, not products. */
  function Sq(x: real): real {
    x * x
  }

  function Mul(x: real, y: real): real {
    x * y
  }

  /** The squared speed that `k` braking steps take off: `k * twoA`, as a sum so that
      reasoning about it stays linear. */
  function Braking(k: nat, twoA: real): real {
    if k == 0 then 0.0 else Braking(k - 1, twoA) + twoA
  }

  lemma {:induction false} BrakingIsProduct(k: nat, twoA: real)
    ensures Braking(k, twoA) == Mul(k as real, twoA)
  {
    if k > 0 {
      BrakingIsProduct(k - 1, twoA);
      assert k as real * twoA == (k as real - 1.0) * twoA + twoA;
      assert (k - 1) as real == k as real - 1.0;
    }
  }

  lemma {:induction false} BrakingMonotone(j: nat, k: nat, twoA: real)
    requires twoA >= 0.0 && j <= k
    ensures 0.0 <= Braking(j, twoA) <= Braking(k, twoA)
    decreases k
  {
    if j < k {
      BrakingMonotone(j, k - 1, twoA);
    } else if k > 0 {
      BrakingMonotone(j - 1, k - 1, twoA);
    }
  }

  /** Whole steps needed to brake from squared speed `v2` to rest: the number of braking
      steps that is just enough, which is `ceil(v2 / twoA)` (StopStepsIsCeil). */
  ghost function StopSteps(v2: real, twoA: real): (k: nat)
    requires twoA > 0.0 && v2 >= 0.0
    ensures v2 <= Braking(k, twoA)
    ensures k > 0 ==> Braking(k - 1, twoA) < v2
    ensures v2 <= 0.0 ==> k == 0
  {
    CeilBounds(v2, twoA);
    assert v2 <= 0.0 ==> forall j: nat :: Braking(j, twoA) >= 0.0 by {
      forall j: nat ensures Braking(j, twoA) >= 0.0 { BrakingMonotone(0, j, twoA); }
    }
    var k: nat :| v2 <= Braking(k, twoA) && (k > 0 ==> Braking(k - 1, twoA) < v2);
    k
  }

  lemma CeilBounds(v2: real, twoA: real)
    requires twoA > 0.0 && v2 >= 0.0
    ensures Ceil(v2 / twoA) >= 0
    ensures v2 <= Braking(Ceil(v2 / twoA), twoA)
    ensures Ceil(v2 / twoA) > 0 ==> Braking(Ceil(v2 / twoA) - 1, twoA) < v2
  {
    var q := v2 / twoA;
    var k := Ceil(q);
    assert Mul(q, twoA) == v2;
    assert q >= 0.0;
    assert q <= k as real && k as real - 1.0 < q;
    BrakingAt(v2, twoA, q, k);
  }

  lemma BrakingAt(v2: real, twoA: real, q: real, k: nat)
    requires twoA > 0.0 && Mul(q, twoA) == v2
    requires q <= k as real && k as real - 1.0 < q
    ensures v2 <= Braking(k, twoA)
    ensures k > 0 ==> Braking(k - 1, twoA) < v2
  {
    BrakingIsProduct(k, twoA);
    MulMonotone(q, k as real, twoA);
    if k > 0 {
      BrakingIsProduct(k - 1, twoA);
      assert (k - 1) as real == k as real - 1.0;
      MulStrict((k - 1) as real, q, twoA);
    }
  }

  lemma MulMonotone(x: real, y: real, z: real)
    requires x <= y && z >= 0.0
    ensures Mul(x, z) <= Mul(y, z)
  {
    assert (y - x) * z >= 0.0;
  }

  lemma MulStrict(x: real, y: real, z: real)
    requires x < y && z > 0.0
    ensures Mul(x, z) < Mul(y, z)
  {
    assert (y - x) * z > 0.0;
  }

  lemma StopStepsUnique(v2: real, twoA: real, k: nat)
    requires twoA > 0.0 && v2 >= 0.0
    requires v2 <= Braking(k, twoA) && (k > 0 ==> Braking(k - 1, twoA) < v2)
    ensures StopSteps(v2, twoA) == k
  {
    var j := StopSteps(v2, twoA);
    if j < k {
      BrakingMonotone(j, k - 1, twoA);
    } else if k < j {
      BrakingMonotone(k, j - 1, twoA);
    }
  }

  lemma StopStepsIsCeil(v2: real, twoA: real)
    requires twoA > 0.0 && v2 >= 0.0
    ensures StopSteps(v2, twoA) == Ceil(v2 / twoA)
  {
    CeilBounds(v2, twoA);
    StopStepsUnique(v2, twoA, Ceil(v2 / twoA));
  }

  /** Braking for the target: `remaining <= ceil(v2 / twoA)` in IEEE arithmetic, where
      an acceleration of 0 makes the quotient infinite for a moving ramp and NaN for
      one at rest. */
  ghost predicate MustBrake(remaining: int, v2: real, twoA: real)
    requires twoA >= 0.0 && v2 >= 0.0
  {
    if twoA > 0.0 then remaining <= StopSteps(v2, twoA) else v2 > 0.0
  }

  /** Squared speed after the next step. */
  ghost function NextSpeed2(remaining: int, v2: real, vmax2: real, twoA: real): real
    requires twoA >= 0.0 && v2 >= 0.0 && vmax2 >= 0.0
  {
    if remaining < 0 || MustBrake(remaining, v2, twoA) then
      if v2 - twoA < 0.0 then 0.0 else v2 - twoA
    else if v2 < vmax2 then
      if v2 + twoA > vmax2 then vmax2 else v2 + twoA
    else if v2 > vmax2 then
      if v2 - twoA < vmax2 then vmax2 else v2 - twoA
    else
      v2
  }

  /** A ramp at rest turns towards its target; a moving one keeps its direction. */
  function Heading(r: Ramp, target: int): Ramp {
    if r.Resting() then Ramp(r.pos, Sign(target - r.pos), 0.0) else r
  }

  /** The distance `n` taken in direction `dir`: `n * dir`, kept linear. */
  function Along(dir: int, n: int): int {
    if dir > 0 then n else if dir < 0 then -n else 0
  }

  /** Steps left in the current direction; negative when the target is behind. */
  function Remaining(r: Ramp, target: int): int {
    Along(r.dir, target - r.pos)
  }

  ghost function Next(r: Ramp, target: int, vmax2: real, twoA: real): (m: Move)
    requires r.Valid() && twoA >= 0.0 && vmax2 >= 0.0
    ensures m.ramp.Valid()
  {
    var h := Heading(r, target);
    var remaining := Remaining(h, target);
    if remaining == 0 then
      Rested(Ramp(h.pos, 0, 0.0))
    else
      var next2 := NextSpeed2(remaining, h.v2, vmax2, twoA);
      if h.v2 <= 0.0 && next2 <= 0.0 then
        Rested(Ramp(h.pos, 0, 0.0))
      else
        Stepped(Ramp(h.pos + h.dir, h.dir, next2))
  }

  /** The planner rests exactly on its target, or where it stands without a speed or an acceleration
      to leave it with. */
  lemma RestsExactly(r: Ramp, target: int, vmax2: real, twoA: real)
    requires r.Valid() && twoA >= 0.0 && vmax2 >= 0.0
    ensures var m := Next(r, target, vmax2, twoA);
            && (m.Rested? <==> r.pos == target || (r.Resting() && (vmax2 == 0.0 || twoA == 0.0)))
            && (m.Rested? ==> m.ramp == Ramp(r.pos, 0, 0.0))
            && (m.Stepped? ==> m.ramp.pos == r.pos + 1 || m.ramp.pos == r.pos - 1)
  {
    hide StopSteps;
    if twoA > 0.0 && r.Resting() {
      NoStopSteps(twoA);
    }
  }

  lemma NoStopSteps(twoA: real)
    requires twoA > 0.0
    ensures StopSteps(0.0, twoA) == 0
  {
    StopStepsUnique(0.0, twoA, 0);
  }

  /** `n` successive calls with a fixed target, top speed and acceleration. */
  ghost function Iterate(r: Ramp, target: int, vmax2: real, twoA: real, n: nat): (s: Ramp)
    requires r.Valid() && twoA >= 0.0 && vmax2 >= 0.0
    ensures s.Valid()
    decreases n
  {
    if n == 0 then r else Iterate(Next(r, target, vmax2, twoA).ramp, target, vmax2, twoA, n - 1)
  }

  // ---------------------------------------------------------------------------
  //  The imperative planner
  // ---------------------------------------------------------------------------

  /** The library square root, by the only thing that is used about it. */
  ghost predicate IsSquareRoot(sqrt: real -> real) {
    forall x: real :: x >= 0.0 ==> sqrt(x) >= 0.0 && Sq(sqrt(x)) == x
  }

  class StepRamp {
    var pos: int
    var dir: int
    var v: real

    constructor (pos: int)
      ensures this.pos == pos && dir == 0 && v == 0.0
    {
      this.pos, dir, v := pos, 0, 0.0;
    }

    ghost predicate Valid()
      reads this
    {
      -1 <= dir <= 1 && v >= 0.0
    }

    ghost function View(): Ramp
      reads this
    {
      Ramp(pos, dir, Sq(v))
    }

    /** One step towards `target`. Returns the step's duration in seconds, which is
        exactly what constant acceleration over one step takes, or 0 for no step. */
    method NextStep(sqrt: real -> real, target: int, vmax: real, accel: real) returns (seconds: real)
      requires Valid() && IsSquareRoot(sqrt) && vmax >= 0.0 && accel >= 0.0
      modifies this
      ensures Valid()
      ensures var m := Next(old(View()), target, Sq(vmax), 2.0 * accel);
              View() == m.ramp &&
              (if m.Rested? then seconds == 0.0
               else seconds > 0.0 && Mul(seconds, v + (if old(View()).Resting() then 0.0 else old(v))) == 2.0)
    {
      ghost var before := View();
      SquareSign(v);
      assert before.Resting() <==> dir == 0 || v <= 0.0;
      if dir == 0 || v <= 0.0 {
        v := 0.0;
        SquareSign(v);
        if target == pos {
          dir := 0;
          return 0.0;
        }
        dir := if target > pos then 1 else -1;
      }
      assert View() == Heading(before, target);

      var remaining := (target - pos) * dir;
      assert remaining == Remaining(View(), target) by { assert dir == 1 || dir == -1; }
      if remaining == 0 {
        v := 0.0;
        dir := 0;
        return 0.0;
      }

      var twoA := 2.0 * accel;
      var v2 := Sq(v);
      var vmax2 := Sq(vmax);
      SquareSign(vmax);
      var next2 := SpeedAfter(remaining, v2, vmax2, twoA);

      var next := if next2 == v2 then v else Root(sqrt, next2);
      assert next >= 0.0 && Sq(next) == next2;
      SquareSign(next);
      SquareSign(v);
      if v + next <= 0.0 {
        dir := 0;
        return 0.0;
      }
      seconds := 2.0 / (v + next);
      DurationProduct(v + next);
      v := next;
      pos := pos + dir;
    }
  }

  /** Whether the next step brakes, computed from the stopping distance `ceil(v2 / twoA)`. */
  method Brakes(remaining: int, v2: real, twoA: real) returns (brake: bool)
    requires twoA >= 0.0 && v2 >= 0.0
    ensures brake <==> remaining < 0 || MustBrake(remaining, v2, twoA)
  {
    brake := remaining < 0;
    if twoA > 0.0 {
      var stopSteps := Ceil(v2 / twoA);
      StopStepsIsCeil(v2, twoA);
      brake := brake || remaining <= stopSteps;
    } else {
      brake := brake || v2 > 0.0;
    }
  }

  /** The speed decision of one step: brake, accelerate or slow to `vmax`. */
  method SpeedAfter(remaining: int, v2: real, vmax2: real, twoA: real) returns (next2: real)
    requires twoA >= 0.0 && v2 >= 0.0 && vmax2 >= 0.0
    ensures next2 == NextSpeed2(remaining, v2, vmax2, twoA) && next2 >= 0.0
  {
    var brake := Brakes(remaining, v2, twoA);
    if brake {
      next2 := v2 - twoA;
      if next2 < 0.0 { next2 := 0.0; }
    } else if v2 < vmax2 {
      next2 := v2 + twoA;
      if next2 > vmax2 { next2 := vmax2; }
    } else if v2 > vmax2 {
      next2 := v2 - twoA;
      if next2 < vmax2 { next2 := vmax2; }
    } else {
      next2 := v2;
    }
  }

  function Root(sqrt: real -> real, x: real): (y: real)
    requires IsSquareRoot(sqrt) && x >= 0.0
    ensures y >= 0.0 && Sq(y) == x
  {
    sqrt(x)
  }

  lemma DurationProduct(s: real)
    requires s > 0.0
    ensures 2.0 / s > 0.0 && Mul(2.0 / s, s) == 2.0
  {
  }

  lemma SquareSign(x: real)
    requires x >= 0.0
    ensures Sq(x) >= 0.0
    ensures x > 0.0 <==> Sq(x) > 0.0
  {
    if x > 0.0 {
      MulStrict(0.0, x, x);
    }
  }

  // ---------------------------------------------------------------------------
  //  Termination and arrival
  // ---------------------------------------------------------------------------

  /** Exactly how many steps are left: the distance when the target is ahead, and the
      stopping distance out and back plus the distance when it is behind. */
  ghost function StepsToGo(r: Ramp, target: int, twoA: real): nat
    requires r.Valid() && twoA > 0.0
  {
    if r.Resting() || Remaining(r, target) >= 0 then Abs(target - r.pos)
    else 2 * StopSteps(r.v2, twoA) + Abs(target - r.pos)
  }

  lemma StopStepsAfterBrake(v2: real, twoA: real)
    requires twoA > 0.0 && v2 > 0.0
    ensures StopSteps(v2, twoA) >= 1
    ensures StopSteps(if v2 - twoA < 0.0 then 0.0 else v2 - twoA, twoA) == StopSteps(v2, twoA) - 1
  {
    var k := StopSteps(v2, twoA);
    var w := if v2 - twoA < 0.0 then 0.0 else v2 - twoA;
    assert k >= 1;
    BrakingMonotone(0, k - 1, twoA);
    StopStepsUnique(w, twoA, k - 1);
  }

  /** Every call either consumes exactly one of the steps to go, or there were none. */
  lemma Progress(r: Ramp, target: int, vmax2: real, twoA: real)
    requires r.Valid() && vmax2 > 0.0 && twoA > 0.0
    ensures var m := Next(r, target, vmax2, twoA);
            if StepsToGo(r, target, twoA) == 0 then m == Rested(Ramp(target, 0, 0.0))
            else m.Stepped? && StepsToGo(m.ramp, target, twoA) == StepsToGo(r, target, twoA) - 1
  {
    var h := Heading(r, target);
    var m := Next(r, target, vmax2, twoA);
    if Remaining(h, target) < 0 {
      StopStepsAfterBrake(r.v2, twoA);
    }
  }

  /** With a fixed target the planner always terminates, on the target and at rest,
      after exactly StepsToGo steps. */
  lemma {:induction false} LandsOnTarget(r: Ramp, target: int, vmax2: real, twoA: real, n: nat)
    requires r.Valid() && vmax2 > 0.0 && twoA > 0.0
    ensures n <= StepsToGo(r, target, twoA) ==>
              StepsToGo(Iterate(r, target, vmax2, twoA, n), target, twoA) == StepsToGo(r, target, twoA) - n
    ensures n == StepsToGo(r, target, twoA) ==> Iterate(r, target, vmax2, twoA, n).pos == target
    ensures n > StepsToGo(r, target, twoA) ==> Iterate(r, target, vmax2, twoA, n) == Ramp(target, 0, 0.0)
    decreases n
  {
    if n > 0 {
      Progress(r, target, vmax2, twoA);
      LandsOnTarget(Next(r, target, vmax2, twoA).ramp, target, vmax2, twoA, n - 1);
    }
  }

  /** Approaching: the target is ahead (or the ramp rests), `rem` steps away. */
  predicate Approaching(r: Ramp, target: int, rem: nat) {
    r.Valid() && rem == Abs(target - r.pos) && (r.Resting() || Remaining(r, target) == rem)
  }

  lemma ApproachStep(r: Ramp, target: int, vmax2: real, twoA: real, rem: nat)
    requires Approaching(r, target, rem) && rem > 0 && vmax2 > 0.0 && twoA > 0.0
    ensures var m := Next(r, target, vmax2, twoA);
            var v2 := if r.Resting() then 0.0 else r.v2;
            && m.Stepped?
            && Approaching(m.ramp, target, rem - 1)
            && m.ramp.pos == r.pos + Sign(target - r.pos)
            && (v2 <= Braking(rem + 1, twoA) ==> m.ramp.v2 <= Braking(rem, twoA))
            && (v2 > Braking(rem + 1, twoA) ==> m.ramp.v2 == v2 - twoA)
            && m.ramp.v2 <= (if v2 > vmax2 then v2 else vmax2)
  {
    var h := Heading(r, target);
    RemainingIsDistance(h, target);
    var k := StopSteps(h.v2, twoA);
    BrakingMonotone(0, rem, twoA);
    if rem > k {
      BrakingMonotone(k, rem - 1, twoA);
    }
    if h.v2 > Braking(rem + 1, twoA) {
      if k <= rem + 1 { BrakingMonotone(k, rem + 1, twoA); }
    }
  }

  lemma RemainingIsDistance(r: Ramp, target: int)
    requires r.Valid() && Remaining(r, target) >= 0 && (r.dir == 0 ==> target == r.pos)
    ensures Remaining(r, target) == Abs(target - r.pos)
  {
  }

  /** Arrival. With the target ahead the planner never passes it and reaches it in
      exactly `rem` steps. It arrives with at most one step's worth of speed, the most
      the final stop may swallow, IF AND ONLY IF the squared speed at the start was at
      most 2a(rem + 1). Otherwise it brakes on every step and still stops dead on the
      target with the excess speed. From rest the top speed is never exceeded. */
  lemma {:induction false} Arrival(r: Ramp, target: int, vmax2: real, twoA: real, rem: nat, n: nat)
    requires Approaching(r, target, rem) && n <= rem && vmax2 > 0.0 && twoA > 0.0
    ensures var s := Iterate(r, target, vmax2, twoA, n);
            var v2 := if r.Resting() then 0.0 else r.v2;
            && Approaching(s, target, rem - n)
            && s.pos == r.pos + Along(Sign(target - r.pos), n)
            && (n > 0 ==> s.v2 <= (if v2 > vmax2 then v2 else vmax2))
            && (n > 0 && v2 > Braking(rem + 1, twoA) ==> s.v2 == v2 - Braking(n, twoA))
            && (n > 0 ==> (s.v2 <= Braking(rem - n + 1, twoA) <==> v2 <= Braking(rem + 1, twoA)))
    decreases n
  {
    if n > 0 {
      ApproachStep(r, target, vmax2, twoA, rem);
      var m := Next(r, target, vmax2, twoA).ramp;
      Arrival(m, target, vmax2, twoA, rem - 1, n - 1);
      var v2 := if r.Resting() then 0.0 else r.v2;
      BrakingMonotone(0, rem, twoA);
      assert n > 1 ==> Sign(target - m.pos) == Sign(target - r.pos);
    }
  }

  /** On the way to its target, within top speed, at a step that gains no speed. */
  ghost predicate GainsNothing(r: Ramp, target: int, vmax2: real, twoA: real, rem: nat) {
    && Approaching(r, target, rem) && (r.dir == 0 ==> r.v2 == 0.0) && r.v2 <= vmax2 && vmax2 > 0.0 && twoA > 0.0
    && Next(r, target, vmax2, twoA).ramp.v2 <= r.v2
  }

  /** From then on the planner holds or brakes. */
  lemma NextGainsNothing(r: Ramp, target: int, vmax2: real, twoA: real, rem: nat)
    ensures GainsNothing(r, target, vmax2, twoA, rem) ==>
              GainsNothing(Next(r, target, vmax2, twoA).ramp, target, vmax2, twoA, if rem == 0 then 0 else rem - 1)
  {
    hide Braking;
    if GainsNothing(r, target, vmax2, twoA, rem) && rem > 0 {
      ApproachStep(r, target, vmax2, twoA, rem);
      if r.v2 > 0.0 {
        StopStepsAfterBrake(r.v2, twoA);
      }
    }
  }

  /** A planner that approaches its target gains speed in one stretch only, at the start. */
  lemma {:induction false} NoSecondGain(r: Ramp, target: int, vmax2: real, twoA: real, rem: nat, n: nat)
    ensures GainsNothing(r, target, vmax2, twoA, rem) ==>
              Iterate(r, target, vmax2, twoA, n + 1).v2 <= Iterate(r, target, vmax2, twoA, n).v2
    decreases n
  {
    hide NextSpeed2;
    if n > 0 && GainsNothing(r, target, vmax2, twoA, rem) {
      NextGainsNothing(r, target, vmax2, twoA, rem);
      NoSecondGain(Next(r, target, vmax2, twoA).ramp, target, vmax2, twoA, if rem == 0 then 0 else rem - 1, n - 1);
    }
  }

  function Min(x: real, y: real): real {
    if x < y then x else y
  }

  function Max(x: real, y: real): real {
    if x > y then x else y
  }

  /** The squared speed after `n` steps that change it as fast as the acceleration allows, from
      `v2` to `vmax2` and no further. */
  function Toward(v2: real, vmax2: real, twoA: real, n: nat): real {
    if v2 <= vmax2 then Min(v2 + Braking(n, twoA), vmax2) else Max(v2 - Braking(n, twoA), vmax2)
  }

  lemma IterateLast(r: Ramp, target: int, vmax2: real, twoA: real, n: nat)
    requires r.Valid() && twoA >= 0.0 && vmax2 >= 0.0 && n > 0
    ensures Iterate(r, target, vmax2, twoA, n)
         == Next(Iterate(r, target, vmax2, twoA, n - 1), target, vmax2, twoA).ramp
  {
    hide Next;
    IterateSplit(r, target, vmax2, twoA, n - 1, 1);
    var s := Iterate(r, target, vmax2, twoA, n - 1);
    assert Iterate(s, target, vmax2, twoA, 1) == Iterate(Next(s, target, vmax2, twoA).ramp, target, vmax2, twoA, 0);
  }

  /** One step that need not brake yet moves the speed towards top speed. */
  lemma TowardStep(s: Ramp, target: int, v2: real, vmax2: real, twoA: real, rem: nat, n: nat)
    requires Approaching(s, target, rem) && (s.dir == 0 ==> s.v2 == 0.0) && vmax2 > 0.0 && twoA > 0.0
    requires v2 >= 0.0 && s.v2 == Toward(v2, vmax2, twoA, n) && StopSteps(s.v2, twoA) < rem
    ensures Next(s, target, vmax2, twoA).ramp.v2 == Toward(v2, vmax2, twoA, n + 1)
  {
    RemainingIsDistance(Heading(s, target), target);
    BrakingMonotone(0, n, twoA);
  }

  /** The speed profile on the way to a target: as long as the stopping distance is shorter than
      what is left, the squared speed changes by 2a a step towards top speed, and stays there. */
  lemma {:induction false} SpeedProfile(r: Ramp, target: int, vmax2: real, twoA: real, rem: nat, n: nat)
    requires Approaching(r, target, rem) && (r.dir == 0 ==> r.v2 == 0.0) && vmax2 > 0.0 && twoA > 0.0 && n <= rem
    requires forall i :: 0 <= i < n ==> 0.0 <= Toward(r.v2, vmax2, twoA, i)
                                        && StopSteps(Toward(r.v2, vmax2, twoA, i), twoA) < rem - i
    ensures Iterate(r, target, vmax2, twoA, n).v2 == Toward(r.v2, vmax2, twoA, n)
    decreases n
  {
    hide Next, StopSteps;
    if n > 0 {
      SpeedProfile(r, target, vmax2, twoA, rem, n - 1);
      IterateLast(r, target, vmax2, twoA, n);
      Arrival(r, target, vmax2, twoA, rem, n - 1);
      MovesHeaded(r, target, vmax2, twoA, n - 1);
      TowardStep(Iterate(r, target, vmax2, twoA, n - 1), target, r.v2, vmax2, twoA, rem - (n - 1), n - 1);
    }
  }

  lemma {:induction false} MovesHeaded(r: Ramp, target: int, vmax2: real, twoA: real, n: nat)
    requires r.Valid() && (r.dir == 0 ==> r.v2 == 0.0) && vmax2 >= 0.0 && twoA >= 0.0
    ensures var s := Iterate(r, target, vmax2, twoA, n); s.dir == 0 ==> s.v2 == 0.0
    decreases n
  {
    hide NextSpeed2;
    if n > 0 {
      MovesHeaded(Next(r, target, vmax2, twoA).ramp, target, vmax2, twoA, n - 1);
    }
  }

  /** From rest the planner gains 2a of squared speed a step up to exactly top speed, at least
      over the first half of the way: a long enough move reaches its set speed. */
  lemma ReachesSpeed(r: Ramp, target: int, vmax2: real, twoA: real, n: nat)
    requires r.Valid() && r.v2 == 0.0 && vmax2 > 0.0 && twoA > 0.0
    ensures 2 * n <= Abs(target - r.pos) + 1 ==>
              Iterate(r, target, vmax2, twoA, n).v2 == Min(Braking(n, twoA), vmax2)
  {
    hide Next, Iterate, Braking;
    var rem := Abs(target - r.pos);
    if 2 * n <= rem + 1 && n > 0 {
      forall i | 0 <= i < n
        ensures 0.0 <= Toward(r.v2, vmax2, twoA, i) && StopSteps(Toward(r.v2, vmax2, twoA, i), twoA) < rem - i
      {
        BrakingMonotone(0, i, twoA);
        StopStepsAtMost(Toward(r.v2, vmax2, twoA, i), twoA, i);
      }
      SpeedProfile(r, target, vmax2, twoA, rem, n);
    } else {
      NoSteps(r, target, vmax2, twoA);
    }
  }

  lemma NoSteps(r: Ramp, target: int, vmax2: real, twoA: real)
    requires r.Valid() && vmax2 >= 0.0 && twoA >= 0.0
    ensures Iterate(r, target, vmax2, twoA, 0) == r && Braking(0, twoA) == 0.0
  {
  }

  lemma StopStepsAtMost(v2: real, twoA: real, k: nat)
    requires twoA > 0.0 && 0.0 <= v2 <= Braking(k, twoA)
    ensures StopSteps(v2, twoA) <= k
  {
    var j := StopSteps(v2, twoA);
    if j > k {
      BrakingMonotone(k, j - 1, twoA);
    }
  }

  /** ... and once the stopping distance is no longer shorter than what is left, every step takes
      2a off, down to the target. */
  lemma {:induction false} BrakesToTarget(r: Ramp, target: int, vmax2: real, twoA: real, rem: nat, n: nat)
    requires Approaching(r, target, rem) && r.v2 > 0.0 && r.dir != 0 && vmax2 > 0.0 && twoA > 0.0 && n <= rem
    requires rem <= StopSteps(r.v2, twoA)
    ensures Iterate(r, target, vmax2, twoA, n).v2 == Max(r.v2 - Braking(n, twoA), 0.0)
    decreases n
  {
    if n > 0 {
      StopStepsAfterBrake(r.v2, twoA);
      var m := Next(r, target, vmax2, twoA).ramp;
      RemainingIsDistance(r, target);
      ApproachStep(r, target, vmax2, twoA, rem);
      assert m.v2 == Max(r.v2 - twoA, 0.0);
      BrakingShift(n, twoA);
      BrakingMonotone(0, n - 1, twoA);
      if m.v2 > 0.0 {
        BrakesToTarget(m, target, vmax2, twoA, rem - 1, n - 1);
      }
    }
  }

  lemma BrakingShift(n: nat, twoA: real)
    requires n > 0
    ensures Braking(n, twoA) == Braking(n - 1, twoA) + twoA
  {
  }

  lemma GentleArrival(r: Ramp, target: int, vmax2: real, twoA: real)
    requires r.Valid() && r.Resting() && vmax2 > 0.0 && twoA > 0.0 && target != r.pos
    ensures var s := Iterate(r, target, vmax2, twoA, Abs(target - r.pos));
            s.pos == target && s.v2 <= twoA && s.v2 <= vmax2
  {
    var rem := Abs(target - r.pos);
    Arrival(r, target, vmax2, twoA, rem, rem);
    BrakingMonotone(0, rem + 1, twoA);
    assert Braking(1, twoA) == twoA;

  }

  /** Reversal. With the target behind a moving ramp, it first brakes along its own
      direction for exactly the stopping distance, each step taking off `twoA`, comes
      to rest there, and then travels back and arrives gently. */
  lemma {:induction false} BrakesToRest(r: Ramp, target: int, vmax2: real, twoA: real, n: nat)
    requires r.Valid() && r.v2 > 0.0 && Remaining(r, target) < 0 && vmax2 > 0.0 && twoA > 0.0
    requires n <= StopSteps(r.v2, twoA)
    ensures var s := Iterate(r, target, vmax2, twoA, n);
            && s.pos == r.pos + Along(r.dir, n) && s.dir == r.dir
            && Remaining(s, target) < 0
            && s.v2 == (if n == StopSteps(r.v2, twoA) then 0.0 else r.v2 - Braking(n, twoA))
    decreases n
  {
    if n > 0 {
      var k := StopSteps(r.v2, twoA);
      StopStepsAfterBrake(r.v2, twoA);
      var m := Next(r, target, vmax2, twoA).ramp;
      assert m == Ramp(r.pos + r.dir, r.dir, if r.v2 - twoA < 0.0 then 0.0 else r.v2 - twoA);
      assert Remaining(m, target) == Remaining(r, target) - 1;
      if k > 1 {
        BrakingMonotone(1, k - 1, twoA);
        assert Braking(1, twoA) == twoA;
        BrakesToRest(m, target, vmax2, twoA, n - 1);
      }
    }
  }

  lemma {:induction false} IterateSplit(r: Ramp, target: int, vmax2: real, twoA: real, m: nat, n: nat)
    requires r.Valid() && twoA >= 0.0 && vmax2 >= 0.0
    ensures Iterate(r, target, vmax2, twoA, m + n)
         == Iterate(Iterate(r, target, vmax2, twoA, m), target, vmax2, twoA, n)
    decreases m
  {
    if m > 0 {
      IterateSplit(Next(r, target, vmax2, twoA).ramp, target, vmax2, twoA, m - 1, n);
    }
  }

  lemma Reversal(r: Ramp, target: int, vmax2: real, twoA: real)
    requires r.Valid() && r.v2 > 0.0 && Remaining(r, target) < 0 && vmax2 > 0.0 && twoA > 0.0
    ensures var k := StopSteps(r.v2, twoA);
            var turn := Iterate(r, target, vmax2, twoA, k);
            var last := Iterate(r, target, vmax2, twoA, StepsToGo(r, target, twoA));
            && turn.pos == r.pos + Along(r.dir, k) && turn.v2 == 0.0
            && Abs(target - turn.pos) == k + Abs(target - r.pos)
            && last.pos == target && last.v2 <= twoA && last.v2 <= vmax2
  {
    var k := StopSteps(r.v2, twoA);
    BrakesToRest(r, target, vmax2, twoA, k);
    var turn := Iterate(r, target, vmax2, twoA, k);
    assert Abs(target - turn.pos) == k + Abs(target - r.pos) by {
      if r.dir == 1 {
      } else {
        assert r.dir == -1;
      }
    }
    GentleArrival(turn, target, vmax2, twoA);
    IterateSplit(r, target, vmax2, twoA, k, k + Abs(target - r.pos));
  }

  /** The settings in force at one call. */
  datatype Setting = Setting(target: int, vmax2: real, twoA: real)
  {
    predicate Valid() { vmax2 > 0.0 && twoA > 0.0 }
  }

  ghost function Retargeted(r: Ramp, settings: seq<Setting>): (s: Ramp)
    requires r.Valid() && forall i :: 0 <= i < |settings| ==> settings[i].Valid()
    ensures s.Valid()
    decreases |settings|
  {
    if settings == [] then r
    else
      assert settings[0].Valid();
      Retargeted(Next(r, settings[0].target, settings[0].vmax2, settings[0].twoA).ramp, settings[1..])
  }

  /** However target, speed and acceleration are changed between steps, a ramp that
      starts below a speed limit all the settings respect never exceeds it, and once
      the settings stop changing it still lands exactly on the last target. */
  lemma {:induction false} RetargetedSafely(r: Ramp, settings: seq<Setting>, last: Setting, limit2: real)
    requires r.Valid() && last.Valid() && forall i :: 0 <= i < |settings| ==> settings[i].Valid()
    ensures var s := Retargeted(r, settings);
            && (r.v2 <= limit2 && (forall i :: 0 <= i < |settings| ==> settings[i].vmax2 <= limit2) ==> s.v2 <= limit2)
            && Iterate(s, last.target, last.vmax2, last.twoA, StepsToGo(s, last.target, last.twoA)).pos == last.target
            && Iterate(s, last.target, last.vmax2, last.twoA, StepsToGo(s, last.target, last.twoA) + 1)
               == Ramp(last.target, 0, 0.0)
    decreases |settings|
  {
    if settings == [] {
      var n := StepsToGo(r, last.target, last.twoA);
      LandsOnTarget(r, last.target, last.vmax2, last.twoA, n);
      LandsOnTarget(r, last.target, last.vmax2, last.twoA, n + 1);
    } else {
      var next := Next(r, settings[0].target, settings[0].vmax2, settings[0].twoA).ramp;
      RetargetedSafely(next, settings[1..], last, limit2);
    }
  }
}
