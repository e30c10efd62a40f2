/** Where a run's first stroke heads, when each stroke began, and what is measured from then on:
    the cycle times, and the readings StallGuard is asked for. */
module StrokeTimes {
  import opened Config
  import opened Conservation
  import opened Endpoints
  import opened Measuring
  import opened MotionCmd
  import opened MotionState
  import opened MotorFsm
  import opened Numbers
  import opened Runs
  import opened SettingsBlob
  import opened SettingsStore
  import opened StallMonitor
  import opened Strokes
  import opened Supervisor
  import A = AutoSg
  import B = SgBlanking

  // ---------------------------------------------------------------------------
  //  The first stroke
  // ---------------------------------------------------------------------------

  /** The stroke heads for an endpoint the press is not at already; from in between, for UP
      exactly if that is the nearer one. */
  predicate FirstStrokeFrom(m: Motion, pos: int) {
    var toUp, toDown := Abs(pos - m.geo.up), Abs(pos - m.geo.down);
    && m.currentTarget in {m.geo.up, m.geo.down} && Abs(pos - m.currentTarget) > NEAR_TOL
    && (toUp > NEAR_TOL && toDown > NEAR_TOL ==> (m.currentTarget == m.geo.up <==> toUp < toDown))
  }

  /** A run that has just begun: its first stroke, from one of the positions found, and its time. */
  predicate Begun(w: World, f: Field) {
    w.m.run == Running ==>
      && w.m.lastChangeMs == f.now
      && (FirstStrokeFrom(w.m, f.posAuto) || FirstStrokeFrom(w.m, f.posToggle) || FirstStrokeFrom(w.m, f.posBatch))
  }

  lemma FirstTargetFar(pos: int, up: int, down: int)
    ensures up + ENDPOINT_GUARD <= down ==>
              var t := FirstTarget(pos, up, down);
              && t in {up, down} && Abs(pos - t) > NEAR_TOL
              && (Abs(pos - up) > NEAR_TOL && Abs(pos - down) > NEAR_TOL ==>
                    (t == up <==> Abs(pos - up) < Abs(pos - down)))
  {
  }

  /** Every way to begin a run begins it towards an endpoint it is not at, and starts its clock. */
  lemma StartedBegun(w: World, now: int, pos: int)
    requires Inv(w) && w.m.run != Running
    ensures forall z :: z in {Started(w, now, pos), AutoStarted(w, now, pos), BatchStarted(w, now, pos)} ==>
              (z.m.run == Running ==> z.m.lastChangeMs == now && FirstStrokeFrom(z.m, pos))
  {
    hide FirstTarget, JamDetectionSetUp, MeasuredTrips, NearPos, A.Stroke;
    if w.m.geo.calibrated {
      FirstTargetFar(pos, w.m.geo.up, w.m.geo.down);
    }
  }

  lemma NotBegun(w: World, h: HomeRun, c: CalRun, now: int)
    ensures Inv(w) && w.m.run != Running ==>
              Homed(w, h).m.run != Running && CalibratedWorld(w, c).m.run != Running && Stopped(w, now) == w
  {
    hide MeasuredGeometry, Recomputed, LastNudge, CalSucceeds;
  }

  lemma {:induction false} ToggledBegun(w: World, n: nat, f: Field)
    requires Inv(w) && Begun(w, f)
    ensures Begun(Toggled(w, n, f.now, f.posToggle), f)
    decreases n
  {
    hide Started, Stopped, GateToggleRun, GateView, FirstStrokeFrom, Inv;
    if n > 0 && GateToggleRun(GateView(w.m)) == Nothing {
      if CanStart(w.m.run) {
        StartedBegun(w, f.now, f.posToggle);
        StartedInv(w, f.now, f.posToggle);
      } else {
        StoppedBegun(w, f);
        StoppedInv(w, f.now);
      }
      ToggledBegun(if CanStart(w.m.run) then Started(w, f.now, f.posToggle) else Stopped(w, f.now), n - 1, f);
    }
  }

  lemma StoppedBegun(w: World, f: Field)
    ensures Begun(w, f) ==> Begun(Stopped(w, f.now), f)
  {
    hide MeasuredTrips, FirstStrokeFrom;
  }

  lemma SettingsBegun(w: World, f: Field, idx: int, ma: int)
    requires Begun(w, f)
    ensures Begun(CurrentSet(ProfileSet(w, idx), ma), f)
  {
    hide FirstStrokeFrom, ProfileSet, CurrentSet;
    SettingsKeepTarget(w, idx, ma);
    SettingsKeepClock(w, idx, ma);
    var n := CurrentSet(ProfileSet(w, idx), ma).m;
    SameFirstStroke(w.m, n, f.posAuto);
    SameFirstStroke(w.m, n, f.posToggle);
    SameFirstStroke(w.m, n, f.posBatch);
  }

  lemma SettingsKeepClock(w: World, idx: int, ma: int)
    ensures CurrentSet(ProfileSet(w, idx), ma).m.lastChangeMs == w.m.lastChangeMs
  {
  }

  lemma SameFirstStroke(m: Motion, n: Motion, pos: int)
    ensures n.geo == m.geo && n.currentTarget == m.currentTarget ==>
              FirstStrokeFrom(n, pos) == FirstStrokeFrom(m, pos)
  {
  }

  /** Whatever the requests: a run they leave going has begun like that. */
  lemma CommandsBegin(w: World, r: Requests, f: Field)
    requires Inv(w) && w.m.run != Running
    ensures Begun(Commanded(w, r, f), f)
  {
    hide CalibratedWorld, AutoStarted, Homed, Toggled, Started, Stopped, BatchStarted, ProfileSet, CurrentSet,
         GateView, GateBatchStart, GateStop, GateReturnHome, GateAutoSg, GateCalibrate, Ready, Inv, FirstStrokeFrom;
    NotBegun(w, f.home, f.cal, f.now);
    CalibratedInv(w, f.cal);
    var a := CalibrateCommand(w, r, f);
    StartedBegun(a, f.now, f.posAuto);
    AutoStartedInv(a, f.now, f.posAuto);
    var b := AutoSgCommand(a, r, f);
    HomedInv(b, f.home);
    if b.m.run == Running {
      HomeOfRunning(b, f.home);
    } else {
      NotBegun(b, f.home, f.cal, f.now);
    }
    var c := HomeCommand(b, r, f);
    ToggledBegun(c, r.toggles, f);
    ToggledInv(c, r.toggles, f.now, f.posToggle);
    var d := Toggled(c, r.toggles, f.now, f.posToggle);
    StoppedBegun(d, f);
    StoppedInv(d, f.now);
    var e := StopCommand(d, r, f);
    if GateBatchStart(GateView(e.m)) == Nothing {
      BatchFromIdle(e);
      StartedBegun(e, f.now, f.posBatch);
    }
    SettingsBegun(BatchCommand(e, r, f), f, r.profile, r.currentMa);
  }

  lemma HomeOfRunning(w: World, h: HomeRun)
    ensures w.m.run == Running ==> GateReturnHome(GateView(w.m)) != Nothing && Homed(w, h) == w
  {
    hide HomedMotion, JamDetectionSetUp;
  }

  lemma BatchFromIdle(w: World)
    ensures GateBatchStart(GateView(w.m)) == Nothing ==> w.m.run == Idle
  {
    hide JamDetectionSetUp;
  }

  // ---------------------------------------------------------------------------
  //  When a stroke began
  // ---------------------------------------------------------------------------

  lemma TurnedClock(w: World, now: int)
    ensures Turned(w, now).m.lastChangeMs == now
  {
    hide FlipTarget;
  }

  lemma ArrivedClock(w: World, now: int)
    requires Inv(w) && w.m.run == Running && Arrived(w, now).m.run == Running
    ensures Arrived(w, now).m.lastChangeMs == now
  {
    hide Inv, Turned, Stopped, AutoStroke, AutoEnds, StrokeCounted, HeadingDown, Since;
    var t := Since(now, w.m.lastChangeMs);
    CountedKeeps(w.m, t);
    var a := if Counts(w.m) then w.(m := StrokeCounted(w.m, t)) else w;
    TurnedClock(StrokeReset(a), now);
    if CompletesBatch(w.m) {
      StopsRunning(a, now);
    } else if a.m.auto.active {
      AutoKeepsCounts(a, now);
      var b := StrokeReset(AutoStroke(a, now));
      TurnedClock(b, now);
      StopsRunning(b, now);
    }
  }

  lemma MonitoredClock(w: World, at: Sense)
    ensures Monitored(w, at).m.lastChangeMs == w.m.lastChangeMs
  {
    hide Blanked, InZone, InDecelWindow, HeadingDown, Count, Add, Fires;
  }

  lemma HandledClock(w: World, at: Sense)
    requires Inv(w) && w.m.run == Running && Handled(w, at).m.run == Running
    ensures Handled(w, at).m.lastChangeMs == if at.moving then w.m.lastChangeMs else at.now
  {
    hide Inv, Arrived, Monitored, Stopped, TimedOut, MeasuredTrips;
    if TimedOut(w, at.now) {
      StopsRunning(AutoEnded(w, false), at.now);
    } else if !at.moving {
      ArrivedClock(w, at.now);
    } else {
      MonitoredClock(w, at);
    }
  }

  /** What one event does to the clock of a press it leaves running. */
  lemma {:induction false} NextClock(y: System, ev: Event)
    requires Inv(y.w) && Next(y, ev).w.m.run == Running
    ensures RunsOn(y.w, ev) || ev.Pump?
    ensures Next(y, ev).w.m.lastChangeMs
         == if Turns(y.w, ev) then ev.at.now else if RunsOn(y.w, ev) then y.w.m.lastChangeMs else ev.f.now
    ensures ev.Pump? && !RunsOn(y.w, ev) ==> Begun(Next(y, ev).w, ev.f)
  {
    hide Inv, Handled, Commanded, ResetCommand, Tick, SaveNow, Load, Edited, Stopped, ProfileSet, CurrentSet,
         FirstStrokeFrom;
    match ev
    case Pump(at, r, f, io) =>
      HandledInv(y.w, at);
      var a := Handled(y.w, at);
      if a.m.run == Running {
        HandledWasRunning(y.w, at);
        HandledClock(y.w, at);
        RunningCommands(a, r, f);
        StopsRunning(a, f.now);
        SettingsKeepTarget(if r.toggles > 0 || r.stop then Stopped(a, f.now) else a, r.profile, r.currentMa);
        SettingsKeepClock(if r.toggles > 0 || r.stop then Stopped(a, f.now) else a, r.profile, r.currentMa);
        ResetLeavesIdle(y.(w := Commanded(a, r, f)), r, io);
      } else {
        CommandsBegin(a, r, f);
        ResetLeavesIdle(y.(w := Commanded(a, r, f)), r, io);
      }
    case Write(e, now, ok) =>
      EditKeepsProfiles(y.w.m, e);
      EditKeepsClock(y.w.m, e);
    case Reboot(readable, now, ok) =>
      BootReady(y.s.flash, readable, now, ok);
  }

  /** A reset only ever meets an idle press, and leaves it idle. */
  lemma ResetLeavesIdle(y: System, r: Requests, io: Io)
    ensures ResetCommand(y, r, io) == y || (y.w.m.run == Idle && ResetCommand(y, r, io).w.m.run == Idle)
  {
    hide Recomputed, Written, Capture;
  }

  lemma HandledWasRunning(w: World, at: Sense)
    ensures Handled(w, at).m.run == Running ==> w.m.run == Running
  {
    hide Ran;
  }

  lemma EditKeepsClock(m: Motion, e: Edit)
    ensures Edited(m, e).lastChangeMs == m.lastChangeMs
  {
    hide Compute;
  }

  /** The clock at the turn, or at the start, that began the stroke the press is in. */
  function StrokeBegan(y: System, evs: seq<Event>, n: nat): int
    requires n <= |evs|
  {
    hide Next, Ready, Handled;
    if n == 0 then y.w.m.lastChangeMs
    else
      var w, ev := After(y, evs, n - 1).w, evs[n - 1];
      if Turns(w, ev) then ev.at.now
      else if RunsOn(w, ev) || !ev.Pump? then StrokeBegan(y, evs, n - 1)
      else ev.f.now
  }

  /** In any run a running press keeps the time its stroke began. */
  lemma {:induction false} AlwaysClocked(y: System, evs: seq<Event>, n: nat)
    requires n <= |evs| && Inv(y.w)
    ensures After(y, evs, n).w.m.run == Running ==> After(y, evs, n).w.m.lastChangeMs == StrokeBegan(y, evs, n)
  {
    hide Inv, Next, Turns, RunsOn, Ready;
    if n > 0 && After(y, evs, n).w.m.run == Running {
      AlwaysInv(y, evs, n - 1);
      NextClock(After(y, evs, n - 1), evs[n - 1]);
      RunsOnRunning(After(y, evs, n - 1).w, evs[n - 1]);
      AlwaysClocked(y, evs, n - 1);
    }
  }

  lemma RunsOnRunning(w: World, ev: Event)
    ensures RunsOn(w, ev) ==> w.m.run == Running
    ensures Turns(w, ev) ==> RunsOn(w, ev) && ev.Pump?
  {
  }

  /** In any run, whoever begins a run of the press and however often in one pass: its first stroke heads
      for an endpoint the press is not at already, from in between for the nearer one. */
  lemma {:induction false} FirstStroke(y: System, evs: seq<Event>, n: nat)
    requires n < |evs| && Inv(y.w)
    ensures var w, z, ev := After(y, evs, n).w, After(y, evs, n + 1).w, evs[n];
            z.m.run == Running && !RunsOn(w, ev) ==>
              ev.Pump? && (FirstStrokeFrom(z.m, ev.f.posAuto) || FirstStrokeFrom(z.m, ev.f.posToggle)
                           || FirstStrokeFrom(z.m, ev.f.posBatch))
  {
    hide Inv, Next, RunsOn, Ready, FirstStrokeFrom, Turns;
    AlwaysInv(y, evs, n);
    if After(y, evs, n + 1).w.m.run == Running {
      NextClock(After(y, evs, n), evs[n]);
    }
  }

  // ---------------------------------------------------------------------------
  //  The readings taken
  // ---------------------------------------------------------------------------

  /** The windows of the three profiles at the run acceleration: milliseconds after a stroke began,
      steps before it ends. */
  const QUIET_MS := Triple(98, 117, 130)
  const QUIET_STEPS := Triple(640, 1062, 1500)

  /** On the way down, closer to DOWN than the work zone. */
  predicate Working(m: Motion, pos: int) {
    HeadingDown(m) && m.geo.down - m.workZone < pos < m.geo.down + m.workZone
  }

  lemma SamplesExactly(m: Motion, at: Sense)
    requires m.profiles.Valid()
    ensures Blanked(m, at.now) <==> Since(at.now, m.lastChangeMs) < QUIET_MS.At(m.profiles.active)
    ensures Samples(m, at) <==>
              && Since(at.now, m.lastChangeMs) >= QUIET_MS.At(m.profiles.active)
              && !Working(m, at.pos)
              && (m.high > 0 || Abs(at.pos - m.currentTarget) >= QUIET_STEPS.At(m.profiles.active))
  {
    hide HeadingDown, Since;
    var p := m.profiles.active;
    assert B.AccelBlankMs(SPEED_HZ.At(p), RUN_DECEL) == QUIET_MS.At(p);
    assert B.DecelBlankSteps(SPEED_HZ.At(p), RUN_DECEL) == QUIET_STEPS.At(p);
  }

  /** In any run a moving stroke's reading enters its statistics exactly when the stroke began at
      least the profile's quiet time ago, the press is not in its work zone on the way down, and
      it is not slowing down already, unless a jam is suspected. Where the zone or the slowing down
      withholds it, no low reading is shown as counted. */
  lemma {:induction false} ReadingsTaken(y: System, evs: seq<Event>, n: nat)
    requires n < |evs| && Inv(y.w) && evs[n].Pump?
    ensures var w, at := After(y, evs, n).w, evs[n].at; var m := w.m;
            var taken := && Since(at.now, StrokeBegan(y, evs, n)) >= QUIET_MS.At(m.profiles.active)
                         && !Working(m, at.pos)
                         && (w.stall.high > 0 || Abs(at.pos - m.currentTarget) >= QUIET_STEPS.At(m.profiles.active));
            m.run == Running && at.moving && Handled(w, at).m.run == Running ==>
              && Handled(w, at).stroke == (if taken then Add(w.stroke, at.sg) else w.stroke)
              && (!taken && Since(at.now, StrokeBegan(y, evs, n)) >= QUIET_MS.At(m.profiles.active) ==>
                    Handled(w, at).m.low == 0)
  {
    hide Inv, Next, After, Handled, Working, Since, StrokeBegan, Samples, Add;
    AlwaysInv(y, evs, n);
    AlwaysClocked(y, evs, n);
    var w, at := After(y, evs, n).w, evs[n].at;
    if w.m.run == Running && at.moving && Handled(w, at).m.run == Running {
      SamplesExactly(w.m, at);
      HandledTakes(w, at);
    }
  }

  lemma HandledTakes(w: World, at: Sense)
    requires Inv(w) && w.m.run == Running && at.moving && Handled(w, at).m.run == Running
    ensures Handled(w, at).stroke == (if Samples(w.m, at) then Add(w.stroke, at.sg) else w.stroke)
    ensures !Blanked(w.m, at.now) && !Samples(w.m, at) ==> Handled(w, at).m.low == 0
    ensures w.m.high == w.stall.high
  {
    hide HeadingDown, Blanked, InZone, InDecelWindow, Add, Count, Fires, Stopped, TimedOut, A.Stroke, MeasuredTrips;
    if TimedOut(w, at.now) {
      StopsRunning(AutoEnded(w, false), at.now);
    }
  }
}
