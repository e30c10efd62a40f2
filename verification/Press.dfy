/** The motion supervisor, carried out step by step on the shared state (main/motion/motion.cpp). */
module Press {
  import opened Config
  import opened Endpoints
  import opened MotionState
  import opened MotorFsm
  import opened Numbers
  import opened SettingsBlob
  import opened StallMonitor
  import opened Supervisor
  import A = AutoSg
  import B = SgBlanking
  import S = StallSearch

  // ---------------------------------------------------------------------------
  //  Guarded transactions on the shared state
  // ---------------------------------------------------------------------------

  /** Begins a stop, if the table allows one. */
  method BeginStop(motion: SharedMotion, now: int) returns (stopping: bool)
    modifies motion
    ensures stopping == (old(motion.run) == Running)
    ensures motion.View() == if stopping then StopBegun(old(motion.View()), now) else old(motion.View())
  {
    var up := motion.geo.up;
    stopping := motion.ApplyMotorEvent(GracefulStop);
    if stopping {
      motion.stopEntryMs := now;
      motion.currentTarget := up;
      motion.batch := motion.batch.(active := false);
    }
  }

  /** jamDetectionSetUp (main/motion/motion_state.h). */
  method TripsSet(motion: SharedMotion) returns (allSet: bool)
    ensures allSet == JamDetectionSetUp(motion.View())
  {
    for i := 0 to NUM_PROFILES
      invariant forall k :: 0 <= k < i ==> motion.profiles.trips.At(k) != 0
    {
      if motion.profiles.trips.At(i) == 0 {
        return false;
      }
    }
    var t := motion.profiles.trips;
    assert t.At(0) != 0 && t.At(1) != 0 && t.At(2) != 0;
    return true;
  }

  /** The refusals, and the transaction that begins a run. */
  method BeginRun(motion: SharedMotion, now: int) returns (started: bool)
    modifies motion
    ensures started == MayStart(old(motion.View()))
    ensures motion.View() == if started then RunBegun(old(motion.View()), now) else old(motion.View())
  {
    if !motion.geo.calibrated {
      return false;
    }
    if motion.geo.stale {
      return false;
    }
    var tripsSet := TripsSet(motion);
    if !tripsSet && !motion.auto.active {
      return false;
    }
    started := motion.ApplyMotorEvent(Start);
    if started {
      motion.lastChangeMs := now;
    }
  }

  /** Counts a finished DOWN stroke. */
  method CountStroke(motion: SharedMotion, now: int) returns (complete: bool)
    modifies motion
    ensures complete == (old(motion.batch.active) && old(motion.batch.count) + 1 >= old(motion.batch.target))
    ensures motion.View() == StrokeCounted(old(motion.View()), Since(now, old(motion.lastChangeMs)))
  {
    hide Since;
    var strokeMs := Since(now, motion.lastChangeMs);
    complete := false;
    if motion.counter < COUNTER_MAX {
      motion.counter := motion.counter + 1;
    }
    motion.lifetimeCycles := (motion.lifetimeCycles + 1) % U32;
    motion.health := motion.health.(totalCycleTimeMs := (motion.health.totalCycleTimeMs + strokeMs) % U32);
    if strokeMs > motion.health.longestCycleMs {
      motion.health := motion.health.(longestCycleMs := strokeMs);
    }
    if motion.batch.active {
      motion.batch := motion.batch.(count := motion.batch.count + 1);
      if motion.batch.count >= motion.batch.target {
        complete := true;
        motion.batch := motion.batch.(active := false);
      }
    }
  }

  /** Latches a jam; a table that refused it would be overruled. */
  method LatchStalled(motion: SharedMotion, lost: bool)
    modifies motion
    ensures motion.View() == JamMotion(old(motion.View()), lost)
  {
    if lost {
      motion.geo := motion.geo.(stale := true);
    }
    var latched := motion.ApplyMotorEvent(Jam);
    motion.health := motion.health.(stallCount := (motion.health.stallCount + 1) % U16);
    motion.batch := motion.batch.(active := false);
    if !latched {
      motion.run := Stalled;
    }
  }

  /** A home, from the transition that enters it to the one that leaves it. */
  method Home(motion: SharedMotion, h: HomeRun) returns (homing: bool)
    modifies motion
    ensures homing == (old(motion.run) in {Idle, Stalled})
    ensures motion.View() == if homing then HomedMotion(old(motion.View()), h) else old(motion.View())
  {
    hide Recomputed;
    homing := motion.ApplyMotorEvent(ReturnHome);
    if !homing {
      return;
    }
    motion.batch := motion.batch.(active := false);
    if h.search == S.Found {
      motion.geo := motion.geo.(rawUp := 0);
      motion.RecomputeEffectiveEndpoints();
      if h.lost {
        motion.geo := motion.geo.(stale := true);
      }
    }
    var abortedAnywhere := h.search == S.Aborted || h.abortedLater;
    var ended := motion.ApplyMotorEvent(if abortedAnywhere then Abort else HomeDone);
    motion.geo := motion.geo.(stale := h.search != S.Found || abortedAnywhere);
  }

  /** A calibration, from the transition that enters it to the one that leaves it: by an
      Abort or a CalibrationDone, which land on the same state. */
  method CalibrateAxis(motion: SharedMotion, c: CalRun) returns (ok: bool)
    modifies motion
    ensures ok == (old(motion.run) == Idle && CalSucceeds(c))
    ensures motion.View()
         == if old(motion.run) == Idle then CalibratedMotion(old(motion.View()), c) else old(motion.View())
  {
    hide MeasuredGeometry, CalSucceeds;
    var entered := motion.ApplyMotorEvent(MotorEvent.Calibrate);
    if !entered {
      return false;
    }
    motion.batch := motion.batch.(active := false);
    ok := FindStops(motion, c);
    var ended := motion.ApplyMotorEvent(CalibrationDone);
    if ok {
      motion.health := motion.health.(calibrationCount := (motion.health.calibrationCount + 1) % U16);
    }
  }

  /** The searches; every exit that did not finish leaves the position stale. */
  method FindStops(motion: SharedMotion, c: CalRun) returns (ok: bool)
    modifies motion`geo
    ensures ok == CalSucceeds(c) && motion.geo == MeasuredGeometry(old(motion.geo), c)
  {
    hide Recomputed;
    motion.geo := motion.geo.(calibrated := false);
    if c.premove == S.Aborted || (c.premove == S.Found && c.premoveAborted) {
      motion.geo := motion.geo.(stale := true);
      return false;
    }
    if c.up != S.Found || c.upAborted {
      motion.geo := motion.geo.(stale := true);
      return false;
    }
    motion.geo := motion.geo.(rawUp := 0);
    if c.down != S.Found || c.downAborted {
      motion.geo := motion.geo.(stale := true);
      return false;
    }
    if !S.TravelPlausible(0, c.measuredDown, ENDPOINT_GUARD) {
      motion.geo := motion.geo.(stale := true);
      return false;
    }
    StoreCalibration(motion, c);
    return true;
  }

  /** The measured endpoints go live, and the carriage is parked at UP. */
  method StoreCalibration(motion: SharedMotion, c: CalRun)
    modifies motion`geo
    ensures motion.geo == Recomputed(old(motion.geo).(rawDown := c.measuredDown, calibrated := true, stale := false,
                                                      upOffset := 0, downOffset := DOWN_OFFSET_DEFAULT))
                          .(stale := c.parkLost)
  {
    hide Recomputed;
    if c.lost {
      motion.geo := motion.geo.(stale := true);
    }
    motion.geo := motion.geo.(rawDown := c.measuredDown);
    motion.geo := motion.geo.(calibrated := true, stale := false, upOffset := 0,
                              downOffset := DOWN_OFFSET_DEFAULT);
    RecomputeKeeps(motion.geo);
    motion.RecomputeEffectiveEndpoints();
    if c.parkLost {
      motion.geo := motion.geo.(stale := true);
    }
  }

  class MotionSupervisor {
    const motion: SharedMotion
    const stall: StallCounter
    const stroke: StrokeStats
    const autoSg: A.AutoSg
    var savedProfile: int
    var savedCurrentMa: int
    var profileStartMs: int
    var drive: Drive
    ghost var past: History

    ghost predicate Valid()
      reads this, motion, stall, stroke, autoSg, autoSg.measured, autoSg.floorOnly
    {
      stall.Valid() && stall.cfg == STALL && autoSg.Valid() && autoSg.cfg == A.SHIPPED && Ready(View())
    }

    ghost function View(): State
      reads this, motion, stall, stroke, autoSg, autoSg.measured, autoSg.floorOnly
    {
      State(motion.View(), stall.View(), stroke.View(), autoSg.View(),
            Saved(savedProfile, savedCurrentMa, profileStartMs), drive, past)
    }

    constructor (motion: SharedMotion)
      requires motion.profiles.Valid()
      ensures Valid() && this.motion == motion && fresh(stall) && fresh(stroke) && fresh(autoSg)
      ensures fresh(autoSg.measured) && fresh(autoSg.floorOnly)
      ensures View() == State(motion.View(), RESET, NO_STATS, A.NEVER_BEGUN, Saved(0, 0, 0), Drive(0, 0, 0, 0),
                              History([], []))
    {
      this.motion := motion;
      stall := new StallCounter(STALL);
      stroke := new StrokeStats();
      autoSg := new A.AutoSg(A.SHIPPED);
      savedProfile, savedCurrentMa, profileStartMs := 0, 0, 0;
      drive := Drive(0, 0, 0, 0);
      past := History([], []);
    }

    method ResetStallCounter()
      requires Valid()
      modifies stall, motion`high, motion`low
      ensures Valid() && View() == StallReset(old(View()))
    {
      stall.Reset();
      motion.high := 0;
      motion.low := 0;
    }

    method ResetStroke()
      requires Valid()
      modifies stroke, `past
      ensures Valid() && View() == StrokeReset(old(View()))
    {
      stroke.Reset();
      past := past.(log := []);
    }

    method ApplyPendingProfile()
      requires Valid()
      modifies motion`profiles
      ensures Valid() && View() == PendingApplied(old(View()))
    {
      if motion.profiles.pending < 0 {
        return;
      }
      motion.profiles := motion.profiles.(active := motion.profiles.pending, pending := -1);
    }

    method MoveTo(target: int)
      requires Valid()
      modifies motion`currentTarget, `drive
      ensures Valid() && View() == Moving(old(View()), target)
    {
      motion.currentTarget := target;
      drive := Drive(SPEED_HZ.At(motion.profiles.active), RUN_DECEL, target, drive.nudge);
    }

    method EndAutoSg(ok: bool)
      requires Valid()
      modifies autoSg`active, motion`auto, motion`profiles
      ensures Valid() && View() == AutoEnded(old(View()), ok)
    {
      hide A.TripFor;
      ghost var trips := MeasuredTrips(autoSg.View());
      autoSg.AbortMeasuring();
      motion.auto := motion.auto.(active := false);
      motion.profiles := motion.profiles.(pending := savedProfile);
      if ok {
        SameTrips(old(autoSg.View()));
        var t0 := autoSg.TripOf(0);
        var t1 := autoSg.TripOf(1);
        var t2 := autoSg.TripOf(2);
        motion.profiles := motion.profiles.(trips := Triple(t0, t1, t2), calCurrentMa := savedCurrentMa);
      }
    }

    method RequestGracefulStop(now: int)
      requires Valid()
      modifies this, motion, autoSg
      ensures Valid() && View() == Stopped(old(View()), now)
    {
      hide AutoEnded, PendingApplied;
      var up := motion.geo.up;
      var stopping := BeginStop(motion, now);
      if !stopping {
        return;
      }
      if motion.auto.active {
        EndAutoSg(false);
      }
      ApplyPendingProfile();
      drive := drive.(accel := RUN_DECEL, target := up);
    }

    method StartRunBetweenEndpoints(now: int, pos: int)
      requires Valid()
      modifies this, motion, stall, stroke
      ensures Valid() && View() == Started(old(View()), now, pos)
    {
      hide FirstTarget, PendingApplied, StallReset, StrokeReset, Moving, MayStart;
      var started := BeginRun(motion, now);
      if !started {
        return;
      }
      ResetStallCounter();
      ApplyPendingProfile();
      ResetStroke();
      MoveTo(FirstTarget(pos, motion.geo.up, motion.geo.down));
    }

    // -------------------------------------------------------------------------
    //  Auto SG
    // -------------------------------------------------------------------------

    /** Returns whether Auto SG has ended, so that the run must stop instead of turning. */
    method AutoSgStrokeDone(now: int) returns (ended: bool)
      requires Valid()
      modifies this, motion, autoSg, autoSg.measured, autoSg.floorOnly
      ensures ended == AutoEnds(old(View()))
      ensures Valid() && View() == AutoStroke(old(View()), now)
    {
      hide A.StrokeDone, A.Result, AutoEnded;
      var step := FeedStroke();
      match step
      case Continue =>
        return false;
      case NextProfile =>
        motion.profiles := motion.profiles.(pending := autoSg.profile);
        profileStartMs := now;
        return false;
      case Done =>
        if motion.runCurrentMa != savedCurrentMa {
          EndAutoSg(false);
        } else {
          EndAutoSg(true);
        }
        return true;
      case Failed =>
        EndAutoSg(false);
        return true;
    }

    method FeedStroke() returns (step: A.Outcome)
      requires Valid()
      modifies `past, motion`auto, autoSg, autoSg.measured, autoSg.floorOnly
      ensures step == A.Result(A.SHIPPED, old(View()).sg, old(View()).stroke)
      ensures Valid() && View() == StrokeFed(old(View()))
      ensures step == A.NextProfile ==> autoSg.profile < NUM_PROFILES
    {
      var s := Stats(stroke.min, stroke.max, stroke.floor);
      NextInRange(autoSg.View(), s);
      step := autoSg.StrokeFinished(s);
      motion.auto := motion.auto.(profile := autoSg.profile,
                                  stroke := if autoSg.seen > 0 then autoSg.seen - 1 else 0);
      past := past.(fed := past.fed + [past.log]);
    }

    method StartAutoSg(now: int, pos: int) returns (started: bool)
      requires Valid()
      modifies this, motion, stall, stroke, autoSg, autoSg.measured, autoSg.floorOnly
      ensures Valid() && View() == AutoStarted(old(View()), now, pos)
      ensures started == (old(motion.run) == Idle && !old(motion.auto.active) && motion.run == Running)
    {
      hide Started, AutoEnded, PendingApplied, AutoBegun;
      if motion.run != Idle || motion.auto.active {
        return false;
      }
      BeginAutoSg(now);
      StartRunBetweenEndpoints(now, pos);
      if motion.run != Running {
        EndAutoSg(false);
        ApplyPendingProfile();
        drive := drive.(speedHz := SPEED_HZ.At(motion.profiles.active));
        return false;
      }
      return true;
    }

    method BeginAutoSg(now: int)
      requires Valid()
      modifies this, motion`auto, motion`profiles, autoSg, autoSg.measured, autoSg.floorOnly
      ensures Valid() && View() == AutoBegun(old(View()), now)
    {
      savedProfile := motion.profiles.active;
      savedCurrentMa := motion.runCurrentMa;
      autoSg.BeginMeasuring(NUM_PROFILES);
      motion.auto := AutoView(true, 0, 0);
      motion.profiles := motion.profiles.(pending := -1, active := 0);
      profileStartMs := now;
      past := past.(fed := []);
    }

    // -------------------------------------------------------------------------
    //  The pump
    // -------------------------------------------------------------------------

    method HandleMotion(at: Sense)
      requires Valid()
      modifies this, motion, stall, stroke, autoSg, autoSg.measured, autoSg.floorOnly
      ensures Valid() && View() == Handled(old(View()), at)
    {
      hide AutoEnded, Stopped, Arrived, Monitored, Settling;
      match motion.run
      case Running =>
        if motion.auto.active && Since(at.now, profileStartMs) > SG_AUTO_TIMEOUT_MS {
          EndAutoSg(false);
          RequestGracefulStop(at.now);
          return;
        }
        if !at.moving {
          StrokeArrived(at.now);
        } else {
          Monitor(at);
        }
      case Stopping =>
        Settle(at);
      case _ =>
    }

    method Settle(at: Sense)
      requires Valid() && motion.run == Stopping
      modifies motion`run
      ensures Valid() && View() == Settling(old(View()), at)
    {
      if !at.moving || NearPos(at.pos, motion.geo.up, STOP_ARRIVAL_TOL) {
        var ended := motion.ApplyMotorEvent(ReachedHome);
        return;
      }
      if Since(at.now, motion.stopEntryMs) > STOP_TIMEOUT_MS {
        var ended := motion.ApplyMotorEvent(StopTimeout);
      }
    }

    method Turn(now: int)
      requires Valid()
      modifies this, motion, stall
      ensures Valid() && View() == Turned(old(View()), now)
    {
      hide PendingApplied, StallReset, Moving, FlipTarget;
      ApplyPendingProfile();
      var target := FlipTarget(motion.currentTarget, motion.geo.up, motion.geo.down);
      motion.lastChangeMs := now;
      ResetStallCounter();
      MoveTo(target);
    }

    method StrokeArrived(now: int)
      requires Valid()
      modifies this, motion, stall, stroke, autoSg, autoSg.measured, autoSg.floorOnly
      ensures Valid() && View() == Arrived(old(View()), now)
    {
      hide StrokeCounted, Stopped, Turned, AutoStroke, AutoEnds, StrokeReset, TargetIsDown;
      CountedKeeps(motion.View(), Since(now, motion.lastChangeMs));
      if TargetIsDown(motion.currentTarget, motion.geo.up, motion.geo.down) && !motion.auto.active {
        var complete := CountStroke(motion, now);
        if complete {
          RequestGracefulStop(now);
          return;
        }
      }
      var ended := false;
      if motion.auto.active {
        ended := AutoSgStrokeDone(now);
      }
      ResetStroke();
      if ended {
        RequestGracefulStop(now);
        return;
      }
      Turn(now);
    }

    method Monitor(at: Sense)
      requires Valid()
      modifies this, motion, stall, stroke
      ensures Valid() && View() == Monitored(old(View()), at)
    {
      hide B.AccelBlankMs, B.DecelBlankSteps, B.InWorkZone, TargetIsDown, Add, Count, StallReset, JamLatched;
      var speed := SPEED_HZ.At(motion.profiles.active);
      var trip := if motion.auto.active then 0 else motion.profiles.trips.At(motion.profiles.active);
      var down := TargetIsDown(motion.currentTarget, motion.geo.up, motion.geo.down);
      if Since(at.now, motion.lastChangeMs) < B.AccelBlankMs(speed, RUN_DECEL) {
        return;
      }
      if down && B.InWorkZone(at.pos, motion.geo.down, motion.workZone) {
        ResetStallCounter();
        return;
      }
      if Abs(at.pos - motion.currentTarget) < B.DecelBlankSteps(speed, RUN_DECEL) && motion.high == 0 {
        motion.low := 0;
        return;
      }
      TakeReading(at.sg);
      if at.sg <= SG_FLOOR || trip <= 0 {
        return;
      }
      var jam := CountReading(at.sg, trip);
      if jam {
        LatchJam(at);
      }
    }

    method TakeReading(sg: nat)
      requires Valid()
      modifies `past, stroke
      ensures Valid()
      ensures var w := old(View());
              View() == w.(stroke := Add(w.stroke, sg),
                           past := w.past.(log := w.past.log + [Sampled(sg, w.m.profiles.active)]))
    {
      var newMax := stroke.AddReading(sg);
      past := past.(log := past.log + [Sampled(sg, motion.profiles.active)]);
    }

    method CountReading(sg: nat, trip: nat) returns (jam: bool)
      requires Valid()
      modifies motion`high, motion`low, stall
      ensures Valid() && jam == Fires(STALL, old(View()).stall, sg, trip)
      ensures var w := old(View());
              var s := Count(STALL, w.stall, sg, trip);
              View() == w.(stall := s, m := w.m.(high := s.high, low := s.low))
    {
      jam := stall.Update(sg, trip);
      motion.high := stall.highCount;
      motion.low := stall.lowCount;
    }

    method LatchJam(at: Sense)
      requires Valid()
      modifies this, motion, stall, stroke
      ensures Valid() && View() == JamLatched(old(View()), at)
    {
      hide StallReset, PendingApplied, TargetIsDown, JamMotion;
      var down := TargetIsDown(motion.currentTarget, motion.geo.up, motion.geo.down);
      JamKeeps(motion.View(), at.lost);
      ResetStroke();
      drive := Drive(CREEP_HOME_SPEED, CREEP_HOME_ACCEL, drive.target,
                     if down then -RUN_BACKOFF_STEPS else RUN_BACKOFF_STEPS);
      LatchStalled(motion, at.lost);
      ResetStallCounter();
      ApplyPendingProfile();
    }

    // -------------------------------------------------------------------------
    //  Homing, calibrating, profiles
    // -------------------------------------------------------------------------

    method SafeCreepHome(h: HomeRun)
      requires Valid()
      modifies `drive, motion
      ensures Valid() && View() == Homed(old(View()), h)
    {
      hide HomedMotion;
      HomeKeeps(motion.View(), h);
      var homing := Home(motion, h);
      if !homing {
        return;
      }
      if h.search == S.Found {
        drive := drive.(nudge := CAL_OVERSHOOT_BACKOFF_STEPS, target := motion.geo.up);
      } else {
        drive := drive.(nudge := -CAL_SEARCH_STEPS);
      }
      drive := drive.(speedHz := SPEED_HZ.At(motion.profiles.active), accel := RUN_DECEL);
    }

    method SetActiveProfile(idx: int)
      requires Valid()
      modifies motion`profiles, `drive
      ensures Valid() && View() == ProfileSet(old(View()), idx)
    {
      if idx < 0 || idx >= NUM_PROFILES {
        return;
      }
      if motion.auto.active {
        return;
      }
      if motion.run == Running {
        motion.profiles := motion.profiles.(pending := idx);
        return;
      }
      motion.profiles := motion.profiles.(active := idx, pending := -1);
      drive := drive.(speedHz := SPEED_HZ.At(idx));
    }

    method CalibrateEndpointsSensorless(c: CalRun) returns (ok: bool)
      requires Valid()
      modifies `drive, motion
      ensures Valid() && View() == CalibratedWorld(old(View()), c)
      ensures ok == (old(motion.run) == Idle && CalSucceeds(c))
    {
      hide CalibratedMotion, CalSucceeds, LastNudge;
      CalibrationKeeps(motion.View(), c);
      var entered := motion.run == Idle;
      ok := CalibrateAxis(motion, c);
      if entered {
        drive := Drive(SPEED_HZ.At(motion.profiles.active), RUN_DECEL, if ok then motion.geo.up else drive.target,
                       LastNudge(c));
      }
    }
  }
}
