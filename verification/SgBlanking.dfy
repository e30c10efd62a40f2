/** StallGuard blanking windows of lib/autolee_logic/sg_blanking.h, and the proof that
    they cover what the step planner really does. */
module SgBlanking {
  import opened Config
  import opened Numbers
  import opened StepRampModel

  /** Runtime acceleration window in milliseconds (32-bit arithmetic). */
  function AccelBlankMs(speedHz: nat, decel: nat): nat
    requires decel > 0
  {
    ((speedHz * 1000 / decel) % U32 + 80) % U32
  }

  /** Deceleration window in steps. The quotient is assumed to fit the 32-bit cast. */
  function DecelBlankSteps(speedHz: nat, decel: nat): nat
    requires decel > 0
  {
    speedHz * speedHz / (2 * decel) + 500
  }

  predicate InWorkZone(pos: int, endpointDown: int, workZoneSteps: int) {
    Abs(pos - endpointDown) < workZoneSteps
  }

  /** Relative drop from the baseline in Q8 fixed point, floored at `absMin`. */
  function DynamicTrip(baseline: nat, relDropQ8: nat, absMin: nat): nat {
    var rel := (baseline * relDropQ8 / 256) % 0x1_0000;
    if rel > absMin then rel else absMin
  }

  // ---------------------------------------------------------------------------
  //  Acceleration: the window against the time the planner takes
  // ---------------------------------------------------------------------------

  function Total(ts: seq<real>): real {
    if |ts| == 0 then 0.0 else Total(ts[..|ts| - 1]) + ts[|ts| - 1]
  }

  /** A from-rest acceleration as the planner performs it: `rs` are successive planner
      states, every one of them faster than the one before, `vs` their speeds and `ts`
      the durations the planner returns for the steps between them. */
  ghost predicate RampUp(rs: seq<Ramp>, vs: seq<real>, ts: seq<real>, target: int, speedHz: nat, accel: nat)
    decreases |ts|
  {
    var n := |ts|;
    && |rs| == |vs| == n + 1
    && rs[n].Valid() && vs[n] >= 0.0 && Sq(vs[n]) == rs[n].v2
    && (if n == 0 then vs[0] == 0.0 else
          && RampUp(rs[..n], vs[..n], ts[..n - 1], target, speedHz, accel)
          && Accelerates(rs[n - 1], rs[n], target, speedHz, accel)
          && Mul(ts[n - 1], vs[n - 1] + vs[n]) == 2.0)
  }

  /** Any run of planner calls from rest towards one target: `rs` are its successive states,
      `vs` their speeds and `ts` the durations the planner returns. */
  ghost predicate Drives(rs: seq<Ramp>, vs: seq<real>, ts: seq<real>, target: int, speedHz: nat, accel: nat)
    decreases |ts|
  {
    var n := |ts|;
    && |rs| == |vs| == n + 1
    && rs[n].Valid() && (rs[n].dir == 0 ==> rs[n].v2 == 0.0) && vs[n] >= 0.0 && Sq(vs[n]) == rs[n].v2
    && (if n == 0 then vs[0] == 0.0 else
          && Drives(rs[..n], vs[..n], ts[..n - 1], target, speedHz, accel)
          && Moves(rs[n - 1], rs[n], target, speedHz, accel)
          && Mul(ts[n - 1], vs[n - 1] + vs[n]) == 2.0)
  }

  ghost predicate Moves(r: Ramp, s: Ramp, target: int, speedHz: nat, accel: nat) {
    && r.Valid() && (r.dir == 0 ==> r.v2 == 0.0) && Sq(speedHz as real) >= 0.0
    && Next(r, target, Sq(speedHz as real), 2.0 * accel as real) == Stepped(s)
  }

  ghost predicate Accelerates(r: Ramp, s: Ramp, target: int, speedHz: nat, accel: nat) {
    Moves(r, s, target, speedHz, accel) && r.v2 < s.v2
  }

  lemma SquareOrder(v: real, w: real)
    requires v >= 0.0 && w >= 0.0
    ensures v < w <==> Sq(v) < Sq(w)
  {
    if v < w {
      MulStrict(v, w, w);
      MulMonotone(v, w, v);
    } else {
      MulMonotone(w, v, w);
      MulMonotone(w, v, v);
    }
  }

  /** An accelerating step gains exactly 2a of squared speed unless it is cut off at
      top speed. */
  lemma AcceleratingStep(r: Ramp, s: Ramp, target: int, speedHz: nat, accel: nat)
    requires Accelerates(r, s, target, speedHz, accel)
    ensures r.v2 < Sq(speedHz as real)
    ensures s.v2 == r.v2 + 2.0 * accel as real ||
            (s.v2 == Sq(speedHz as real) && s.v2 <= r.v2 + 2.0 * accel as real)
  {
  }

  /** A full-acceleration step from `v` to `w` lasts (w - v) / a. */
  lemma StepTime(v: real, w: real, a: real, t: real)
    requires v >= 0.0 && w > 0.0 && a > 0.0
    requires Mul(t, v + w) == 2.0
    requires Sq(w) - Sq(v) == 2.0 * a
    ensures Mul(t, a) == w - v
  {
    var s := v + w;
    assert (w - v) * s == 2.0 * a;
    assert t * ((w - v) * s) == (t * s) * (w - v);
    assert t * (2.0 * a) == 2.0 * (t * a);
  }

  lemma MulSum(x: real, y: real, z: real)
    ensures Mul(x + y, z) == Mul(x, z) + Mul(y, z)
  {
  }

  lemma MulScale(c: real, x: real, z: real)
    ensures Mul(c * x, z) == c * Mul(x, z)
  {
  }

  /** Full acceleration from rest telescopes: time multiplied by `a` is the speed. Only
      the last step can be cut off at top speed. */
  lemma {:induction false} TimeToSpeed(rs: seq<Ramp>, vs: seq<real>, ts: seq<real>, target: int, speedHz: nat,
                                       accel: nat)
    requires RampUp(rs, vs, ts, target, speedHz, accel) && accel > 0
    requires rs[|ts|].v2 < Sq(speedHz as real)
    ensures Mul(Total(ts), accel as real) == vs[|ts|]
    decreases |ts|
  {
    var n := |ts|;
    if n > 0 {
      assert Accelerates(rs[n - 1], rs[n], target, speedHz, accel);
      AcceleratingStep(rs[n - 1], rs[n], target, speedHz, accel);
      TimeToSpeed(rs[..n], vs[..n], ts[..n - 1], target, speedHz, accel);
      SquareOrder(vs[n - 1], vs[n]);
      StepTime(vs[n - 1], vs[n], accel as real, ts[n - 1]);
      MulSum(Total(ts[..n - 1]), ts[n - 1], accel as real);
    }
  }

  lemma WindowBounds(speedHz: nat, accel: nat)
    requires accel > 0 && speedHz * 1000 / accel + 80 < U32
    ensures AccelBlankMs(speedHz, accel) == speedHz * 1000 / accel + 80
    ensures Mul((AccelBlankMs(speedHz, accel) - 79) as real, accel as real) > 1000.0 * speedHz as real
  {
    var q := speedHz * 1000 / accel;
    assert speedHz * 1000 < (q + 1) * accel;
    assert ((q + 1) * accel) as real == (q + 1) as real * accel as real;
  }

  lemma CancelFactor(x: real, y: real, a: real)
    requires a > 0.0 && Mul(x, a) <= Mul(y, a)
    ensures x <= y
  {
    if y < x { MulStrict(y, x, a); }
  }

  /** A speed reached under full acceleration is reached 79 ms before the window ends. */
  lemma ReachedBeforeWindow(e: real, v: real, speedHz: nat, accel: nat)
    requires accel > 0 && speedHz * 1000 / accel + 80 < U32
    requires Mul(e, accel as real) == v && v <= speedHz as real
    ensures 1000.0 * e <= AccelBlankMs(speedHz, accel) as real - 79.0
  {
    WindowBounds(speedHz, accel);
    MulScale(1000.0, e, accel as real);
    CancelFactor(1000.0 * e, (AccelBlankMs(speedHz, accel) - 79) as real, accel as real);
  }

  /** A step whose speeds sum to at least `bound` lasts at most 2 / bound. */
  lemma ShortStep(t: real, s: real, bound: real)
    requires s >= bound > 0.0 && Mul(t, s) == 2.0
    ensures t >= 0.0 && Mul(t, bound) <= 2.0
  {
    if t < 0.0 {
      MulStrict(t, 0.0, s);
    }
    MulMonotone(bound, s, t);
    assert Mul(bound, t) == Mul(t, bound);
    assert Mul(s, t) == Mul(t, s);
  }

  /** At 25 steps/s or more, whatever the acceleration, an uninterrupted acceleration from rest
      has finished by the time the window ends. */
  lemma {:induction false} RampCovered(rs: seq<Ramp>, vs: seq<real>, ts: seq<real>, target: int,
      speedHz: nat, accel: nat)
    requires RampUp(rs, vs, ts, target, speedHz, accel) && accel > 0
    requires speedHz >= 25 && speedHz * 1000 / accel + 80 < U32
    ensures 1000.0 * Total(ts) <= AccelBlankMs(speedHz, accel) as real
  {
    var n, top := |ts|, speedHz as real;
    WindowBounds(speedHz, accel);
    if n > 0 {
      var u, w, t := vs[n - 1], vs[n], ts[n - 1];
      assert Accelerates(rs[n - 1], rs[n], target, speedHz, accel);
      AcceleratingStep(rs[n - 1], rs[n], target, speedHz, accel);
      SquareOrder(u, top);
      SquareOrder(w, top);
      SquareOrder(top, w);
      if rs[n].v2 < Sq(top) {
        TimeToSpeed(rs, vs, ts, target, speedHz, accel);
        ReachedBeforeWindow(Total(ts), w, speedHz, accel);
      } else {
        TimeToSpeed(rs[..n], vs[..n], ts[..n - 1], target, speedHz, accel);
        ReachedBeforeWindow(Total(ts[..n - 1]), u, speedHz, accel);
        CutOffStep(rs, vs, ts, target, speedHz, accel);
      }
    }
  }

  /** The last step, cut off at top speed: short, or the only one. */
  lemma CutOffStep(rs: seq<Ramp>, vs: seq<real>, ts: seq<real>, target: int, speedHz: nat, accel: nat)
    requires RampUp(rs, vs, ts, target, speedHz, accel) && accel > 0 && |ts| > 0
    requires speedHz >= 25 && vs[|ts|] == speedHz as real
    ensures 1000.0 * ts[|ts| - 1] <= if |ts| == 1 then 80.0 else 79.0
    ensures |ts| == 1 ==> Total(ts[..0]) == 0.0
  {
    var n := |ts|;
    var u, t := vs[n - 1], ts[n - 1];
    if n == 1 {
      ShortStep(t, u + vs[n], 25.0);
    } else {
      assert Accelerates(rs[n - 2], rs[n - 1], target, speedHz, accel);
      assert Accelerates(rs[n - 1], rs[n], target, speedHz, accel);
      AcceleratingStep(rs[n - 2], rs[n - 1], target, speedHz, accel);
      AcceleratingStep(rs[n - 1], rs[n], target, speedHz, accel);
      SquareOrder(u, 1.0);
      SquareOrder(1.0, u);
      ShortStep(t, u + vs[n], 26.0);
    }
  }

  /** Along a run from rest the target is always ahead, and the speed within its limit. */
  lemma {:induction false} DrivesAhead(rs: seq<Ramp>, vs: seq<real>, ts: seq<real>, target: int, speedHz: nat,
                                       accel: nat)
    requires Drives(rs, vs, ts, target, speedHz, accel) && accel > 0 && speedHz > 0
    ensures Sq(speedHz as real) > 0.0
    ensures Approaching(rs[|ts|], target, Abs(target - rs[|ts|].pos)) && rs[|ts|].v2 <= Sq(speedHz as real)
    decreases |ts|
  {
    hide Next;
    var n := |ts|;
    SquareSign(speedHz as real);
    if n > 0 {
      DrivesAhead(rs[..n], vs[..n], ts[..n - 1], target, speedHz, accel);
      StepAhead(rs[n - 1], rs[n], target, speedHz, accel);
    }
  }

  lemma StepAhead(r: Ramp, s: Ramp, target: int, speedHz: nat, accel: nat)
    requires Moves(r, s, target, speedHz, accel) && accel > 0 && Sq(speedHz as real) > 0.0
    requires Approaching(r, target, Abs(target - r.pos)) && r.v2 <= Sq(speedHz as real)
    ensures Approaching(s, target, Abs(target - s.pos)) && s.v2 <= Sq(speedHz as real)
  {
    hide NextSpeed2, Braking;
    ApproachStep(r, target, Sq(speedHz as real), 2.0 * accel as real, Abs(target - r.pos));
  }

  /** A step that gains speed follows only steps that gained speed. */
  lemma {:induction false} GainsAreRamp(rs: seq<Ramp>, vs: seq<real>, ts: seq<real>, target: int, speedHz: nat,
                                        accel: nat)
    requires Drives(rs, vs, ts, target, speedHz, accel) && accel > 0 && speedHz > 0
    requires |ts| > 0 ==> rs[|ts| - 1].v2 < rs[|ts|].v2
    ensures RampUp(rs, vs, ts, target, speedHz, accel)
    decreases |ts|
  {
    hide Next, Approaching;
    var n := |ts|;
    if n > 1 {
      assert rs[..n][..n - 1] == rs[..n - 1] && vs[..n][..n - 1] == vs[..n - 1] && ts[..n - 1][..n - 2] == ts[..n - 2];
      DrivesAhead(rs[..n - 1], vs[..n - 1], ts[..n - 2], target, speedHz, accel);
      if rs[n - 1].v2 <= rs[n - 2].v2 {
        NextGainsNothing(rs[n - 2], target, Sq(speedHz as real), 2.0 * accel as real, Abs(target - rs[n - 2].pos));
      }
    }
    if n > 0 {
      GainsAreRamp(rs[..n], vs[..n], ts[..n - 1], target, speedHz, accel);
    }
  }

  lemma {:induction false} DrivesPrefix(rs: seq<Ramp>, vs: seq<real>, ts: seq<real>, target: int, speedHz: nat,
                                        accel: nat, n: nat)
    requires Drives(rs, vs, ts, target, speedHz, accel) && n <= |ts|
    ensures Drives(rs[..n + 1], vs[..n + 1], ts[..n], target, speedHz, accel)
    decreases |ts|
  {
    hide Moves;
    var m := |ts|;
    if n == m {
      assert rs[..n + 1] == rs && vs[..n + 1] == vs && ts[..n] == ts;
    } else {
      DrivesPrefix(rs[..m], vs[..m], ts[..m - 1], target, speedHz, accel, n);
      assert rs[..m][..n + 1] == rs[..n + 1] && vs[..m][..n + 1] == vs[..n + 1] && ts[..m - 1][..n] == ts[..n];
    }
  }

  /** What the window has to cover: every step that gains speed is over when it ends. */
  ghost predicate Covered(rs: seq<Ramp>, ts: seq<real>, speedHz: nat, accel: nat)
    requires accel > 0
  {
    |rs| == |ts| + 1 && forall i :: 0 <= i < |ts| && rs[i].v2 < rs[i + 1].v2 ==>
      1000.0 * Total(ts[..i + 1]) <= AccelBlankMs(speedHz, accel) as real
  }

  /** The acceleration window covers the ramp: in any run of planner calls from rest, at 25
      steps/s or more and whatever the acceleration, every step that gains speed, however late
      in the run, has finished by the time the window ends. */
  lemma BlankingCoversRamp(rs: seq<Ramp>, vs: seq<real>, ts: seq<real>, target: int, speedHz: nat, accel: nat)
    requires Drives(rs, vs, ts, target, speedHz, accel) && accel > 0
    requires speedHz >= 25 && speedHz * 1000 / accel + 80 < U32
    ensures Covered(rs, ts, speedHz, accel)
  {
    hide Moves, RampUp, AccelBlankMs, Total;
    forall i | 0 <= i < |ts| && rs[i].v2 < rs[i + 1].v2
      ensures 1000.0 * Total(ts[..i + 1]) <= AccelBlankMs(speedHz, accel) as real
    {
      DrivesPrefix(rs, vs, ts, target, speedHz, accel, i + 1);
      GainsAreRamp(rs[..i + 2], vs[..i + 2], ts[..i + 1], target, speedHz, accel);
      RampCovered(rs[..i + 2], vs[..i + 2], ts[..i + 1], target, speedHz, accel);
    }
  }

  /** At the run acceleration the bound is exact: once the planner has moved, the window
      covers every step that gains speed if and only if the profile runs at 25 steps/s or
      more. Below that, the very first step from rest outlasts the window. */
  lemma RunBlankingExact(rs: seq<Ramp>, vs: seq<real>, ts: seq<real>, target: int, speedHz: nat)
    requires Drives(rs, vs, ts, target, speedHz, RUN_DECEL) && |ts| > 0
    requires speedHz * 1000 / RUN_DECEL + 80 < U32
    ensures Covered(rs, ts, speedHz, RUN_DECEL) <==> speedHz >= 25
  {
    hide RampUp, AccelBlankMs, Total;
    if speedHz >= 25 {
      BlankingCoversRamp(rs, vs, ts, target, speedHz, RUN_DECEL);
    } else {
      DrivesPrefix(rs, vs, ts, target, speedHz, RUN_DECEL, 1);
      FirstStepGains(rs[..2], vs[..2], ts[..1], target, speedHz, RUN_DECEL);
      GainsAreRamp(rs[..2], vs[..2], ts[..1], target, speedHz, RUN_DECEL);
      SlowFirstStep(rs[..2], vs[..2], ts[..1], target, speedHz);
    }
  }

  lemma FirstStepGains(rs: seq<Ramp>, vs: seq<real>, ts: seq<real>, target: int, speedHz: nat, accel: nat)
    requires Drives(rs, vs, ts, target, speedHz, accel) && |ts| == 1 && accel > 0
    ensures rs[0].v2 == 0.0 < rs[1].v2 && speedHz > 0
  {
    hide Mul, Braking;
    SquareSign(vs[0]);
    SquareSign(speedHz as real);
    assert Drives(rs[..1], vs[..1], ts[..0], target, speedHz, accel);
  }

  /** Below 25 steps/s the run acceleration reaches top speed in a single step. */
  lemma {:induction false} OneStepToTop(rs: seq<Ramp>, vs: seq<real>, ts: seq<real>, target: int, speedHz: nat)
    requires RampUp(rs, vs, ts, target, speedHz, RUN_DECEL) && |ts| > 0 && speedHz < 25
    ensures |ts| == 1 && rs[1].v2 == Sq(speedHz as real)
    decreases |ts|
  {
    var n := |ts|;
    AcceleratingStep(rs[n - 1], rs[n], target, speedHz, RUN_DECEL);
    SquareOrder(24.0, speedHz as real);
    assert Sq(24.0) == 576.0;
    if n > 1 {
      OneStepToTop(rs[..n], vs[..n], ts[..n - 1], target, speedHz);
    }
  }

  lemma {:induction false} SlowFirstStep(rs: seq<Ramp>, vs: seq<real>, ts: seq<real>, target: int, speedHz: nat)
    requires RampUp(rs, vs, ts, target, speedHz, RUN_DECEL) && |ts| > 0 && speedHz < 25
    ensures 1000.0 * Total(ts) > 80.0 == AccelBlankMs(speedHz, RUN_DECEL) as real
  {
    var top := speedHz as real;
    OneStepToTop(rs, vs, ts, target, speedHz);
    SquareOrder(vs[1], top);
    SquareOrder(top, vs[1]);
    assert ts[..0] == [] && Total(ts[..0]) == 0.0;
    if ts[0] <= 0.08 {
      MulMonotone(ts[0], 0.08, top);
    }
  }

  // ---------------------------------------------------------------------------
  //  Reaching top speed, and how tight the windows are
  // ---------------------------------------------------------------------------

  lemma {:induction false} DrivesIterate(rs: seq<Ramp>, vs: seq<real>, ts: seq<real>, target: int, speedHz: nat,
                                         accel: nat)
    requires Drives(rs, vs, ts, target, speedHz, accel) && Sq(speedHz as real) >= 0.0
    ensures rs[0].Valid()
    ensures rs[|ts|] == Iterate(rs[0], target, Sq(speedHz as real), 2.0 * accel as real, |ts|)
    decreases |ts|
  {
    hide Next;
    var n := |ts|;
    if n > 0 {
      DrivesIterate(rs[..n], vs[..n], ts[..n - 1], target, speedHz, accel);
      IterateLast(rs[0], target, Sq(speedHz as real), 2.0 * accel as real, n);
    }
  }

  lemma {:induction false} DrivesStart(rs: seq<Ramp>, vs: seq<real>, ts: seq<real>, target: int, speedHz: nat,
                                       accel: nat)
    requires Drives(rs, vs, ts, target, speedHz, accel)
    ensures rs[0].Valid() && vs[0] == 0.0 && rs[0].v2 == 0.0
    decreases |ts|
  {
    hide Moves;
    var n := |ts|;
    if n > 0 {
      DrivesStart(rs[..n], vs[..n], ts[..n - 1], target, speedHz, accel);
    }
  }

  /** Steps it takes from rest to top speed. */
  ghost function RampSteps(speedHz: nat, accel: nat): nat
    requires accel > 0
  {
    SquareSign(speedHz as real);
    StopSteps(Sq(speedHz as real), 2.0 * accel as real)
  }

  /** A run that is long enough is at top speed after RampSteps steps, and not before. */
  lemma TopSpeedReached(rs: seq<Ramp>, vs: seq<real>, ts: seq<real>, target: int, speedHz: nat, accel: nat)
    requires Drives(rs, vs, ts, target, speedHz, accel) && accel > 0 && speedHz > 0
    ensures |ts| == RampSteps(speedHz, accel) && 2 * |ts| <= Abs(target - rs[0].pos) + 1 ==>
              rs[|ts|].v2 == Sq(speedHz as real) && vs[|ts|] == speedHz as real
    ensures |ts| < RampSteps(speedHz, accel) && 2 * |ts| <= Abs(target - rs[0].pos) + 1 ==>
              rs[|ts|].v2 == Braking(|ts|, 2.0 * accel as real) < Sq(speedHz as real)
  {
    hide Next, Iterate, Drives, Braking;
    SquareSign(speedHz as real);
    DrivesEnd(rs, vs, ts, target, speedHz, accel);
    DrivesIterate(rs, vs, ts, target, speedHz, accel);
    DrivesStart(rs, vs, ts, target, speedHz, accel);
    ReachesSpeed(rs[0], target, Sq(speedHz as real), 2.0 * accel as real, |ts|);
    SquareOrder(vs[|ts|], speedHz as real);
    SquareOrder(speedHz as real, vs[|ts|]);
    if |ts| < RampSteps(speedHz, accel) {
      BrakingMonotone(|ts|, RampSteps(speedHz, accel) - 1, 2.0 * accel as real);
    }
  }

  lemma DrivesEnd(rs: seq<Ramp>, vs: seq<real>, ts: seq<real>, target: int, speedHz: nat, accel: nat)
    requires Drives(rs, vs, ts, target, speedHz, accel)
    ensures |rs| == |vs| == |ts| + 1 && vs[|ts|] >= 0.0 && Sq(vs[|ts|]) == rs[|ts|].v2
  {
  }

  /** A step that gains at most 2a of squared speed lasts at least (w - v) / a. */
  lemma StepTimeAtLeast(v: real, w: real, a: real, t: real)
    requires v >= 0.0 && w > 0.0 && a > 0.0 && Mul(t, v + w) == 2.0
    requires Sq(w) - Sq(v) <= 2.0 * a
    ensures Mul(t, a) >= w - v
  {
    var s := v + w;
    assert (w - v) * s <= 2.0 * a;
    if t < 0.0 {
      MulStrict(t, 0.0, s);
    }
    MulMonotone((w - v) * s, 2.0 * a, t);
    assert Mul((w - v) * s, t) == (t * s) * (w - v);
    assert Mul(2.0 * a, t) == 2.0 * (t * a);
  }

  /** Top speed is reached no earlier than at v / a, and all but the last step on the way there
      have been taken by then. */
  lemma TopSpeedTime(rs: seq<Ramp>, vs: seq<real>, ts: seq<real>, target: int, speedHz: nat, accel: nat)
    requires Drives(rs, vs, ts, target, speedHz, accel) && accel > 0 && speedHz > 0
    requires |ts| == RampSteps(speedHz, accel) && 2 * |ts| <= Abs(target - rs[0].pos) + 1
    ensures |ts| > 0 && Mul(Total(ts[..|ts| - 1]), accel as real) < speedHz as real <= Mul(Total(ts), accel as real)
  {
    hide Drives, Next, Braking, Accelerates;
    var n, top := |ts|, speedHz as real;
    SquareSign(top);
    StepsPositive(speedHz, accel);
    TopSpeedReached(rs, vs, ts, target, speedHz, accel);
    DrivesLast(rs, vs, ts, target, speedHz, accel);
    TopSpeedReached(rs[..n], vs[..n], ts[..n - 1], target, speedHz, accel);
    GainsAreRamp(rs, vs, ts, target, speedHz, accel);
    RampLast(rs, vs, ts, target, speedHz, accel);
    TimeToSpeed(rs[..n], vs[..n], ts[..n - 1], target, speedHz, accel);
    SquareOrder(vs[n - 1], top);
    BrakingSteps(n, 2.0 * accel as real, top);
    StepTimeAtLeast(vs[n - 1], top, accel as real, ts[n - 1]);
    MulSum(Total(ts[..n - 1]), ts[n - 1], accel as real);
  }

  lemma StepsPositive(speedHz: nat, accel: nat)
    requires accel > 0 && speedHz > 0
    ensures RampSteps(speedHz, accel) > 0
  {
    SquareSign(speedHz as real);
    assert Braking(0, 2.0 * accel as real) == 0.0;
  }

  lemma DrivesLast(rs: seq<Ramp>, vs: seq<real>, ts: seq<real>, target: int, speedHz: nat, accel: nat)
    requires Drives(rs, vs, ts, target, speedHz, accel) && |ts| > 0
    ensures var n := |ts|;
            && |rs| == |vs| == n + 1 && Drives(rs[..n], vs[..n], ts[..n - 1], target, speedHz, accel)
            && vs[n - 1] >= 0.0 && Sq(vs[n - 1]) == rs[n - 1].v2 && Mul(ts[n - 1], vs[n - 1] + vs[n]) == 2.0
  {
    hide Moves;
    DrivesEnd(rs[..|ts|], vs[..|ts|], ts[..|ts| - 1], target, speedHz, accel);
  }

  lemma RampLast(rs: seq<Ramp>, vs: seq<real>, ts: seq<real>, target: int, speedHz: nat, accel: nat)
    requires RampUp(rs, vs, ts, target, speedHz, accel) && |ts| > 0
    ensures var n := |ts|; RampUp(rs[..n], vs[..n], ts[..n - 1], target, speedHz, accel)
  {
    hide Accelerates;
  }

  lemma BrakingSteps(n: nat, twoA: real, top: real)
    requires twoA > 0.0 && Sq(top) >= 0.0 && n > 0 && n == StopSteps(Sq(top), twoA)
    ensures Sq(top) - Braking(n - 1, twoA) <= twoA
  {
  }

  /** The acceleration window is tight: it outlasts the acceleration to top speed by no more than
      80 ms. */
  lemma AccelWindowTight(rs: seq<Ramp>, vs: seq<real>, ts: seq<real>, target: int, speedHz: nat, accel: nat)
    requires Drives(rs, vs, ts, target, speedHz, accel) && accel > 0 && speedHz > 0
    requires |ts| == RampSteps(speedHz, accel) && 2 * |ts| <= Abs(target - rs[0].pos) + 1
    requires speedHz * 1000 / accel + 80 < U32
    ensures AccelBlankMs(speedHz, accel) as real - 80.0 <= 1000.0 * Total(ts)
  {
    hide Drives, Total, RampSteps;
    TopSpeedTime(rs, vs, ts, target, speedHz, accel);
    WindowBounds(speedHz, accel);
    WindowBelow(speedHz, accel);
    MulScale(1000.0, Total(ts), accel as real);
    CancelFactor((AccelBlankMs(speedHz, accel) - 80) as real, 1000.0 * Total(ts), accel as real);
  }

  lemma WindowBelow(speedHz: nat, accel: nat)
    requires accel > 0 && AccelBlankMs(speedHz, accel) == speedHz * 1000 / accel + 80
    ensures Mul((AccelBlankMs(speedHz, accel) - 80) as real, accel as real) <= 1000.0 * speedHz as real
  {
    var q := speedHz * 1000 / accel;
    assert q * accel <= speedHz * 1000;
    assert (q * accel) as real == q as real * accel as real;
  }

  /** The deceleration window is tight: braking from top speed takes all of it but 499 or 500 steps. */
  lemma DecelWindowTight(speedHz: nat, accel: nat)
    requires accel > 0
    ensures DecelBlankSteps(speedHz, accel) - 500 <= RampSteps(speedHz, accel) <= DecelBlankSteps(speedHz, accel) - 499
  {
    hide DecelBlankSteps, Braking;
    SquareSign(speedHz as real);
    var q := DecelBudget(speedHz, accel);
    StopStepsWithin(Sq(speedHz as real), 2.0 * accel as real, q);
    DecelBelow(speedHz, accel, q);
    StopStepsAbove(Sq(speedHz as real), 2.0 * accel as real, q);
  }

  lemma DecelBelow(speedHz: nat, accel: nat, q: nat)
    requires accel > 0 && DecelBlankSteps(speedHz, accel) == q + 500
    ensures Braking(q, 2.0 * accel as real) <= Sq(speedHz as real)
  {
    assert q * (2 * accel) <= speedHz * speedHz;
    assert (q * (2 * accel)) as real == q as real * (2.0 * accel as real);
    assert (speedHz * speedHz) as real == Sq(speedHz as real);
    BrakingIsProduct(q, 2.0 * accel as real);
  }

  lemma {:induction false} StopStepsAbove(v2: real, twoA: real, q: nat)
    requires twoA > 0.0 && 0.0 <= v2 && Braking(q, twoA) <= v2
    ensures StopSteps(v2, twoA) >= q
  {
    hide StopSteps;
    var k := StopSteps(v2, twoA);
    if k < q {
      BrakingMonotone(k, q - 1, twoA);
    }
  }

  // ---------------------------------------------------------------------------
  //  Deceleration: the window against where the planner first brakes
  // ---------------------------------------------------------------------------

  /** Braking from top speed takes at most v^2 / 2a steps, rounded up, 499 fewer than the window. */
  lemma DecelBudget(speedHz: nat, accel: nat) returns (q: nat)
    requires accel > 0
    ensures DecelBlankSteps(speedHz, accel) == q + 500
    ensures Sq(speedHz as real) < Braking(q + 1, 2.0 * accel as real)
  {
    q := speedHz * speedHz / (2 * accel);
    assert speedHz * speedHz < (q + 1) * (2 * accel);
    assert ((q + 1) * (2 * accel)) as real == (q + 1) as real * (2.0 * accel as real);
    assert (speedHz * speedHz) as real == Sq(speedHz as real);
    BrakingIsProduct(q + 1, 2.0 * accel as real);
  }

  /** At or below top speed, only a braking step loses speed with the target ahead. */
  lemma LosesSpeedWhenBraking(r: Ramp, target: int, vmax2: real, twoA: real)
    requires r.Valid() && !r.Resting() && twoA > 0.0 && Remaining(r, target) >= 0 && r.v2 <= vmax2
    requires Next(r, target, vmax2, twoA).ramp.v2 < r.v2
    ensures Remaining(r, target) <= StopSteps(r.v2, twoA)
  {
    hide Braking;
  }

  /** The stopping distance of a speed that `q + 1` braking steps more than use up. */
  lemma StopStepsWithin(v2: real, twoA: real, q: nat)
    requires twoA > 0.0 && 0.0 <= v2 < Braking(q + 1, twoA)
    ensures StopSteps(v2, twoA) <= q + 1
  {
    var k := StopSteps(v2, twoA);
    if k > q + 1 {
      BrakingMonotone(q + 1, k - 1, twoA);
    }
  }

  /** At or below top speed the planner never slows down for its target outside the
      deceleration window: any step that loses speed with the target ahead starts
      within DecelBlankSteps of it. */
  lemma BrakesInsideDecelWindow(r: Ramp, target: int, speedHz: nat, accel: nat)
    requires r.Valid() && !r.Resting() && accel > 0 && Remaining(r, target) >= 0
    requires r.v2 <= Sq(speedHz as real)
    requires Sq(speedHz as real) >= 0.0
    requires Next(r, target, Sq(speedHz as real), 2.0 * accel as real).ramp.v2 < r.v2
    ensures Abs(target - r.pos) < DecelBlankSteps(speedHz, accel)
  {
    hide Next, Braking, Sq, DecelBlankSteps;
    LosesSpeedWhenBraking(r, target, Sq(speedHz as real), 2.0 * accel as real);
    RemainingIsDistance(r, target);
    var q := DecelBudget(speedHz, accel);
    StopStepsWithin(r.v2, 2.0 * accel as real, q);
  }

  /** The deceleration window covers the braking: in any run of planner calls from rest, every
      step that loses speed starts inside it. */
  lemma DecelWindowCovers(rs: seq<Ramp>, vs: seq<real>, ts: seq<real>, target: int, speedHz: nat, accel: nat, i: nat)
    requires Drives(rs, vs, ts, target, speedHz, accel) && accel > 0 && speedHz > 0 && i < |ts|
    ensures rs[i + 1].v2 < rs[i].v2 ==> Abs(target - rs[i].pos) < DecelBlankSteps(speedHz, accel)
  {
    hide Next, DecelBlankSteps, Sq;
    DrivesPrefix(rs, vs, ts, target, speedHz, accel, i + 1);
    DrivesPrefix(rs, vs, ts, target, speedHz, accel, i);
    DrivesAhead(rs[..i + 1], vs[..i + 1], ts[..i], target, speedHz, accel);
    if rs[i + 1].v2 < rs[i].v2 {
      BrakesInsideDecelWindow(rs[i], target, speedHz, accel);
    }
  }
}
