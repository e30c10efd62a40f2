/** Whole runs of the machine: pump iterations, writes from the web and touch tasks, and
    reboots, in any order; and what holds between any two of them. */
module Runs {
  import opened Config
  import opened Endpoints
  import opened MotionCmd
  import opened MotionState
  import opened MotorFsm
  import opened Numbers
  import opened SettingsBlob
  import opened SettingsStore
  import opened StallMonitor
  import opened Supervisor
  import A = AutoSg

  /** A write from another task (main/net/web_server.cpp, main/ui/ui_touch.cpp). */
  datatype Edit =
    | UpOffset(delta: int) | DownOffset(delta: int) | Trip(profile: int, value: int) | WorkZone(delta: int)
    | BatchTarget(delta: int) | BatchClear | CounterReset | OtaDone | Refresh

  function Edited(m: Motion, e: Edit): Motion {
    match e
    case UpOffset(d) =>
      if !m.geo.calibrated then m
      else m.(geo := Recomputed(m.geo.(upOffset := Clamp(m.geo.upOffset + d, OFFSET_MIN, OFFSET_MAX))))
    case DownOffset(d) =>
      if !m.geo.calibrated then m
      else m.(geo := Recomputed(m.geo.(downOffset := Clamp(m.geo.downOffset + d, OFFSET_MIN, OFFSET_MAX))))
    case Trip(p, v) =>
      if 0 <= p < NUM_PROFILES && RUN_SG_TRIP_MIN <= v <= RUN_SG_TRIP_MAX
      then m.(profiles := m.profiles.(trips := m.profiles.trips.With(p, v))) else m
    case WorkZone(d) => m.(workZone := Clamp(m.workZone + d, SG_WORK_ZONE_MIN, SG_WORK_ZONE_MAX))
    case BatchTarget(d) => m.(batch := m.batch.(target := Clamp(m.batch.target + d, 0, BATCH_TARGET_MAX)))
    case BatchClear => m.(batch := Batch(false, 0, 0))
    case CounterReset => m.(counter := 0)
    case OtaDone => m.(health := m.health.(otaCount := (m.health.otaCount + 1) % U16))
    case Refresh => m.(geo := Recomputed(m.geo))
  }

  datatype Event =
    | Pump(at: Sense, r: Requests, f: Field, io: Io)
    | Write(e: Edit, now: int, ok: bool)
    | Reboot(readable: bool, now: int, ok: bool)

  /** A reboot loses everything but the flash. */
  function Booted(m: Motion): World
    requires m.profiles.Valid()
  {
    State(m, RESET, NO_STATS, A.NEVER_BEGUN, Saved(0, 0, 0), Drive(0, 0, 0, 0), History([], []))
  }

  function Next(y: System, ev: Event): System {
    hide Handled, Processed, SaveNow, Load, Recomputed;
    match ev
    case Pump(at, r, f, io) => Processed(y.(w := Handled(y.w, at)), r, f, io)
    case Write(e, now, ok) =>
      EditKeepsProfiles(y.w.m, e);
      var m := Edited(y.w.m, e);
      System(y.w.(m := m), if e.OtaDone? then SaveNow(m, y.s, now, ok) else y.s)
    case Reboot(readable, now, ok) =>
      BootReady(y.s.flash, readable, now, ok);
      var (m, s) := Load(DEFAULTS, y.s.flash, readable, now, ok);
      System(Booted(m), s)
  }

  lemma EditKeepsProfiles(m: Motion, e: Edit)
    ensures var n := Edited(m, e);
            && n.profiles == m.profiles.(trips := n.profiles.trips) && n.run == m.run && n.auto == m.auto
            && n.currentTarget == m.currentTarget && n.runCurrentMa == m.runCurrentMa
            && (n.batch.active ==> m.batch.active) && n.high == m.high
            && n.geo.calibrated == m.geo.calibrated && n.geo.stale == m.geo.stale
            && (Apart(m.geo) ==> Apart(n.geo))
  {
    hide Compute;
    match e
    case UpOffset(d) => RecomputedApart(m.geo.(upOffset := Clamp(m.geo.upOffset + d, OFFSET_MIN, OFFSET_MAX)));
    case DownOffset(d) => RecomputedApart(m.geo.(downOffset := Clamp(m.geo.downOffset + d, OFFSET_MIN, OFFSET_MAX)));
    case _ => RecomputedApart(m.geo);
  }

  lemma BootReady(flash: Option<seq<byte>>, readable: bool, now: int, ok: bool)
    ensures var m := Load(DEFAULTS, flash, readable, now, ok).0;
            && m.profiles.Valid() && m.profiles.pending == -1 && m.run == Idle && m.high == 0
            && !m.auto.active && !m.batch.active
            && (!m.geo.calibrated || m.geo.stale) && Apart(m.geo)
  {
    hide ParseAndMigrate, Compute, Capture, Image;
    RecomputedApart(BootCounted(Loaded(DEFAULTS, if readable then flash else None)).geo);
    if flash.Some? {
      MigrationSound(flash.value);
      FitsProfile(flash.value);
    }
  }

  lemma FitsProfile(data: seq<byte>)
    ensures ParseAndMigrate(data).Ok? ==> ParseAndMigrate(data).settings.v3.v2.v1.activeProfile in {0, 1, 2}
  {
    hide ParseAndMigrate;
    MigrationSound(data);
  }

  /** The system after the first `n` events. */
  function After(y: System, evs: seq<Event>, n: nat): System
    requires n <= |evs|
  {
    if n == 0 then y else Next(After(y, evs, n - 1), evs[n - 1])
  }

  // ---------------------------------------------------------------------------
  //  The invariant
  // ---------------------------------------------------------------------------

  /** The stepper is doing what the state says. */
  predicate Driven(w: World) {
    w.drive.speedHz == Speed(w.m) && w.drive.accel == RUN_DECEL && w.drive.target == w.m.currentTarget
  }

  /** Auto SG measures the profile that is active, and nobody can change it. */
  predicate Measuring(w: World) {
    && w.sg.active && w.m.profiles.active == w.sg.profile == w.m.auto.profile && w.m.profiles.pending == -1
    && w.m.auto.stroke == A.Stroke(w.sg)
  }

  ghost predicate Inv(w: World) {
    && w.m.run != Calibrating && w.m.run != Homing && w.m.high == w.stall.high && Apart(w.m.geo)
    && (w.m.run == Running ==> w.m.geo.calibrated && !w.m.geo.stale && Driven(w))
    && (w.m.run != Running ==> !w.m.batch.active && !w.m.auto.active && w.m.profiles.pending == -1)
    && (w.m.auto.active ==> !w.m.batch.active && Measuring(w))
  }

  lemma StoppedInv(w: World, now: int)
    ensures Inv(w) ==> Inv(Stopped(w, now))
  {
    hide MeasuredTrips;
  }

  lemma StartedInv(w: World, now: int, pos: int)
    ensures Inv(w) ==> Inv(Started(w, now, pos))
  {
    hide FirstTarget, JamDetectionSetUp;
  }

  lemma AutoStartedInv(w: World, now: int, pos: int)
    ensures Inv(w) ==> Inv(AutoStarted(w, now, pos))
  {
    hide FirstTarget, JamDetectionSetUp, MeasuredTrips;
  }

  lemma TurnedInv(w: World, now: int)
    requires w.m.high == w.stall.high && w.m.run == Running && w.m.geo.calibrated && !w.m.geo.stale
    requires Apart(w.m.geo)
    requires w.m.auto.active ==>
      && !w.m.batch.active && w.sg.active && w.m.auto.profile == w.sg.profile && w.m.auto.stroke == A.Stroke(w.sg)
      && w.sg.profile == if w.m.profiles.pending < 0 then w.m.profiles.active else w.m.profiles.pending
    ensures Inv(Turned(w, now))
  {
    hide FlipTarget, A.Stroke;
  }

  lemma StoppingInv(w: World, now: int)
    ensures w.m.high == w.stall.high && w.m.run == Running && Apart(w.m.geo) ==>
              Inv(Stopped(w, now))
  {
    hide MeasuredTrips;
  }

  /** Auto SG goes on to the next profile, or it has ended. */
  lemma AutoStrokeKeeps(w: World, now: int)
    ensures Inv(w) && w.m.auto.active ==>
              var b := AutoStroke(w, now);
              && b.m.run == Running && b.m.high == b.stall.high && b.m.geo == w.m.geo && !b.m.batch.active
              && b.m.auto.active != AutoEnds(w)
              && (b.m.auto.active ==>
                    && b.sg.active && b.m.auto.profile == b.sg.profile && b.m.auto.stroke == A.Stroke(b.sg)
                    && b.sg.profile == if b.m.profiles.pending < 0 then b.m.profiles.active else b.m.profiles.pending)
  {
    hide MeasuredTrips, A.Stroke;
  }

  lemma ArrivedInv(w: World, now: int)
    requires Inv(w) && w.m.run == Running
    ensures Inv(Arrived(w, now))
  {
    hide StrokeCounted, Stopped, Turned, AutoStroke, AutoEnds, HeadingDown, Since, A.Stroke;
    CountedKeeps(w.m, Since(now, w.m.lastChangeMs));
    CountedBatch(w.m, Since(now, w.m.lastChangeMs));
    var a := if Counts(w.m) then w.(m := StrokeCounted(w.m, Since(now, w.m.lastChangeMs))) else w;
    if CompletesBatch(w.m) {
      StoppingInv(a, now);
    } else if !a.m.auto.active {
      TurnedInv(StrokeReset(a), now);
    } else {
      AutoStrokeKeeps(a, now);
      var b := StrokeReset(AutoStroke(a, now));
      if AutoEnds(a) {
        StoppingInv(b, now);
      } else {
        TurnedInv(b, now);
      }
    }
  }

  lemma CountedBatch(m: Motion, strokeMs: nat)
    ensures StrokeCounted(m, strokeMs).batch.active ==> m.batch.active
  {
  }

  lemma MonitoredInv(w: World, at: Sense)
    ensures Inv(w) && w.m.run == Running ==> Inv(Monitored(w, at))
  {
    hide Blanked, InZone, InDecelWindow, HeadingDown, Fires, Count, Add, A.Stroke;
  }

  lemma HandledInv(w: World, at: Sense)
    requires Inv(w)
    ensures Inv(Handled(w, at))
  {
    hide Arrived, Monitored, Stopped, Since, NearPos, A.Stroke, MeasuredTrips;
    if w.m.run == Running {
      if TimedOut(w, at.now) {
        StoppingInv(AutoEnded(w, false), at.now);
      } else if !at.moving {
        ArrivedInv(w, at.now);
      } else {
        MonitoredInv(w, at);
      }
    }
  }

  lemma HomedInv(w: World, h: HomeRun)
    requires Inv(w)
    ensures Inv(Homed(w, h))
  {
    hide Recomputed, A.Stroke;
    RecomputedApart(w.m.geo.(rawUp := 0));
  }

  lemma CalibratedInv(w: World, c: CalRun)
    requires Inv(w)
    ensures Inv(CalibratedWorld(w, c))
  {
    hide MeasuredGeometry, LastNudge, CalSucceeds, A.Stroke;
    MeasuredApart(w.m.geo, c);
  }

  lemma MeasuredApart(g: Geometry, c: CalRun)
    ensures Apart(MeasuredGeometry(g, c))
  {
    hide CalSucceeds, UpFound;
  }

  lemma {:induction false} ToggledInv(w: World, n: nat, now: int, pos: int)
    requires Inv(w)
    ensures Inv(Toggled(w, n, now, pos))
    decreases n
  {
    hide Inv, Started, Stopped, GateToggleRun, GateView;
    if n > 0 && GateToggleRun(GateView(w.m)) == Nothing {
      StartedInv(w, now, pos);
      StoppedInv(w, now);
      ToggledInv(if CanStart(w.m.run) then Started(w, now, pos) else Stopped(w, now), n - 1, now, pos);
    }
  }

  lemma BatchStartedInv(w: World, now: int, pos: int)
    ensures Inv(w) && GateBatchStart(GateView(w.m)) == Nothing ==> Inv(BatchStarted(w, now, pos))
  {
    hide FirstTarget, JamDetectionSetUp;
  }

  lemma ProfileSetInv(w: World, idx: int)
    ensures Inv(w) ==> Inv(ProfileSet(w, idx))
  {
    hide A.Stroke;
  }

  lemma CurrentSetInv(w: World, ma: int)
    ensures Inv(w) ==> Inv(CurrentSet(w, ma))
  {
    hide A.Stroke;
  }

  lemma CommandedInv(w: World, r: Requests, f: Field)
    requires Inv(w)
    ensures Inv(Commanded(w, r, f))
  {
    hide Inv, CalibratedWorld, AutoStarted, Homed, Toggled, Stopped, BatchStarted, ProfileSet, CurrentSet, GateView,
         GateBatchStart, GateStop, GateReturnHome, GateAutoSg, GateCalibrate;
    CalibratedInv(w, f.cal);
    var a := CalibrateCommand(w, r, f);
    AutoStartedInv(a, f.now, f.posAuto);
    var b := AutoSgCommand(a, r, f);
    HomedInv(b, f.home);
    var c := HomeCommand(b, r, f);
    ToggledInv(c, r.toggles, f.now, f.posToggle);
    var d := Toggled(c, r.toggles, f.now, f.posToggle);
    StoppedInv(d, f.now);
    var e := StopCommand(d, r, f);
    if GateBatchStart(GateView(e.m)) == Nothing {
      BatchStartedInv(e, f.now, f.posBatch);
    }
    var g := BatchCommand(e, r, f);
    ProfileSetInv(g, r.profile);
    CurrentSetInv(ProfileSet(g, r.profile), r.currentMa);
  }

  lemma ResetInv(y: System, r: Requests, io: Io)
    requires Inv(y.w)
    ensures Inv(ResetCommand(y, r, io).w)
  {
    hide Recomputed, Written, Capture, A.Stroke;
    RecomputedApart(WithDefaults(y.w.m).geo);
  }

  lemma NextInv(y: System, ev: Event)
    requires Inv(y.w)
    ensures Inv(Next(y, ev).w)
  {
    hide Handled, Commanded, ResetCommand, Tick, SaveNow, Load, Edited, A.Stroke;
    match ev
    case Pump(at, r, f, io) =>
      HandledInv(y.w, at);
      CommandedInv(Handled(y.w, at), r, f);
      ResetInv(y.(w := Commanded(Handled(y.w, at), r, f)), r, io);
    case Write(e, now, ok) =>
      EditKeepsProfiles(y.w.m, e);
    case Reboot(readable, now, ok) =>
      BootReady(y.s.flash, readable, now, ok);
  }

  /** At every boundary between events, under any interleaving of them: a running press is
      calibrated, referenced and driven at the active profile's speed to the current target;
      the endpoints of a calibrated one are at least the guard apart;
      the jam count the deceleration window consults is the real one; a batch, Auto SG and a
      queued profile exist only while running; and while Auto SG is active it measures exactly
      the active profile, outside any batch. */
  lemma {:induction false} AlwaysInv(y: System, evs: seq<Event>, n: nat)
    requires n <= |evs| && Inv(y.w)
    ensures Inv(After(y, evs, n).w)
  {
    hide Inv, Next, Ready;
    if n > 0 {
      AlwaysInv(y, evs, n - 1);
      NextInv(After(y, evs, n - 1), evs[n - 1]);
    }
  }
}
