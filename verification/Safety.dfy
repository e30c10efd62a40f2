/** Safety over whole runs: recovery from a jam, and gates that agree with the actions behind
    them. */
module Safety {
  import opened Config
  import opened MotionCmd
  import opened MotionState
  import opened MotorFsm
  import opened Runs
  import opened SettingsBlob
  import opened SettingsStore
  import opened Supervisor
  import A = AutoSg
  import Endpoints
  import StallMonitor

  // ---------------------------------------------------------------------------
  //  Jam recovery
  // ---------------------------------------------------------------------------

  /** Jammed, or idle with starting refused for want of a calibration or a position. */
  predicate Refusing(m: Motion) {
    m.run == Stalled || (m.run == Idle && (!m.geo.calibrated || m.geo.stale))
  }

  /** In this event a home or a calibration is carried out whose searches found their stops
      and were not aborted. */
  predicate Recovers(w: World, ev: Event) {
    && ev.Pump?
    && var a := Handled(w, ev.at);
       || (ev.r.calibrate && GateCalibrate(GateView(a.m)) == Nothing && CalSucceeds(ev.f.cal))
       || (ev.r.returnHome && HomeCompletes(ev.f.home)
           && GateReturnHome(GateView(AutoSgCommand(CalibrateCommand(a, ev.r, ev.f), ev.r, ev.f).m)) == Nothing)
  }

  lemma GatesRefuse(m: Motion)
    ensures Refusing(m) ==> GateStart(GateView(m)) != Nothing && GateAutoSg(GateView(m)) != Nothing
    ensures Refusing(m) ==>
              GateToggleRun(GateView(m)) != Nothing && GateStop(GateView(m)) != Nothing
    ensures Refusing(m) ==> GateBatchStart(GateView(m)) != Nothing
  {
    hide JamDetectionSetUp;
  }

  /** A search that failed or was aborted always ends idle, without a position and with starting
      refused, also on a press that was calibrated and referenced before it; one that is refused
      leaves a refusing press as it is. */
  lemma FailedSearchRefuses(w: World, h: HomeRun, c: CalRun)
    requires Inv(w)
    ensures w.m.run in {Idle, Stalled} && !HomeCompletes(h) ==>
              Refusing(Homed(w, h).m) && Homed(w, h).m.run == Idle && Homed(w, h).m.geo.stale
    ensures w.m.run == Idle && !CalSucceeds(c) ==>
              && Refusing(CalibratedWorld(w, c).m) && CalibratedWorld(w, c).m.run == Idle
              && CalibratedWorld(w, c).m.geo.stale
    ensures Refusing(w.m) && !HomeCompletes(h) ==> Refusing(Homed(w, h).m)
    ensures Refusing(w.m) && !CalSucceeds(c) ==> Refusing(CalibratedWorld(w, c).m)
  {
    hide Recomputed, CalSucceeds, UpFound, LastNudge;
  }

  lemma RefusedCommands(w: World, r: Requests, f: Field)
    requires Inv(w) && Refusing(w.m)
    requires !(r.calibrate && GateCalibrate(GateView(w.m)) == Nothing && CalSucceeds(f.cal))
    requires !(r.returnHome && HomeCompletes(f.home)
               && GateReturnHome(GateView(AutoSgCommand(CalibrateCommand(w, r, f), r, f).m)) == Nothing)
    ensures Refusing(Commanded(w, r, f).m)
  {
    hide Inv, CalibratedWorld, AutoStarted, Homed, Stopped, Started, BatchStarted, ProfileSet, CurrentSet, GateView,
         GateBatchStart, GateStop, GateReturnHome, GateAutoSg, GateCalibrate, GateToggleRun, CalSucceeds, HomeCompletes,
         Refusing;
    FailedSearchRefuses(w, f.home, f.cal);
    CalibratedInv(w, f.cal);
    var a := CalibrateCommand(w, r, f);
    GatesRefuse(a.m);
    assert AutoSgCommand(a, r, f) == a;
    FailedSearchRefuses(a, f.home, f.cal);
    HomedInv(a, f.home);
    var b := HomeCommand(a, r, f);
    GatesRefuse(b.m);
    assert StopCommand(Toggled(b, r.toggles, f.now, f.posToggle), r, f) == b;
    assert BatchCommand(b, r, f) == b;
    ProfileKeepsRefusing(b, r.profile, r.currentMa);
  }

  lemma ProfileKeepsRefusing(w: World, idx: int, ma: int)
    ensures Refusing(w.m) ==> Refusing(CurrentSet(ProfileSet(w, idx), ma).m)
  {
  }

  lemma ResetKeepsRefusing(y: System, r: Requests, io: Io)
    ensures Refusing(y.w.m) ==> Refusing(ResetCommand(y, r, io).w.m)
  {
    hide Written, Capture, Endpoints.Compute;
  }

  lemma {:induction false} RefusingStays(y: System, ev: Event)
    requires Inv(y.w) && Refusing(y.w.m) && !Recovers(y.w, ev)
    ensures Refusing(Next(y, ev).w.m)
  {
    hide Inv, Commanded, ResetCommand, Tick, SaveNow, Load, Edited, GateView, GateCalibrate, GateReturnHome,
         AutoSgCommand, CalibrateCommand, CalSucceeds, HomeCompletes, Ran;
    match ev
    case Pump(at, r, f, io) =>
      assert Handled(y.w, at) == y.w;
      RefusedCommands(y.w, r, f);
      ResetKeepsRefusing(y.(w := Commanded(y.w, r, f)), r, io);
    case Write(e, now, ok) =>
      EditKeepsProfiles(y.w.m, e);
    case Reboot(readable, now, ok) =>
      BootReady(y.s.flash, readable, now, ok);
  }

  lemma {:induction false} StillRefusing(y: System, evs: seq<Event>, i: nat, j: nat)
    requires i <= j <= |evs| && Inv(y.w)
    ensures Refusing(After(y, evs, i).w.m) && (forall k :: i <= k < j ==> !Recovers(After(y, evs, k).w, evs[k])) ==>
              Refusing(After(y, evs, j).w.m)
    decreases j
  {
    hide Inv, Next, Refusing, Recovers;
    if i < j && Refusing(After(y, evs, i).w.m) && forall k :: i <= k < j ==> !Recovers(After(y, evs, k).w, evs[k]) {
      StillRefusing(y, evs, i, j - 1);
      AlwaysInv(y, evs, j - 1);
      RefusingStays(After(y, evs, j - 1), evs[j - 1]);
    }
  }

  /** Between a jam and any later run, whatever happens in between, reboots included, a home
      or a calibration has been carried out whose searches found their stops, not aborted. */
  lemma {:induction false} JamRecovery(y: System, evs: seq<Event>, i: nat, j: nat)
    requires i <= j <= |evs| && Inv(y.w)
    ensures After(y, evs, i).w.m.run == Stalled && After(y, evs, j).w.m.run == Running ==>
              exists k :: i <= k < j && Recovers(After(y, evs, k).w, evs[k])
  {
    hide Inv, Next, Recovers, After;
    if After(y, evs, i).w.m.run == Stalled && forall k :: i <= k < j ==> !Recovers(After(y, evs, k).w, evs[k]) {
      StillRefusing(y, evs, i, j);
    }
  }

  const IDLE_IO := Io(0, false, false, false)

  /** A pass with nothing but a return home, and one with nothing but a tap on the run button. */
  function HomePass(at: Sense, f: Field): Event {
    Pump(at, NO_REQUESTS.(returnHome := true), f, IDLE_IO)
  }

  function RunPass(at: Sense, f: Field): Event {
    Pump(at, NO_REQUESTS.(toggles := 1), f, IDLE_IO)
  }

  lemma HomePassEnds(y: System, at: Sense, f: Field)
    requires Inv(y.w) && y.w.m.run == Stalled && y.w.m.geo.calibrated && HomeCompletes(f.home)
    ensures var n := Next(y, HomePass(at, f)).w;
            && n.m.run == Idle && n.m.geo.calibrated && !n.m.geo.stale && n.m.profiles.trips == y.w.m.profiles.trips
            && !n.m.auto.active
  {
    hide Recomputed, Tick, A.Stroke;
    RecomputeKeeps(y.w.m.geo.(rawUp := 0));
  }

  lemma RunPassStarts(y: System, at: Sense, f: Field)
    requires Inv(y.w) && GateStart(GateView(y.w.m)) == Nothing
    ensures Next(y, RunPass(at, f)).w.m.run == Running
  {
    hide Tick, A.Stroke, JamDetectionSetUp, FirstTarget, Toggled;
    ToggledStep(y.w, 1, f.now, f.posToggle);
    ToggledStep(Started(y.w, f.now, f.posToggle), 1, f.now, f.posToggle);
  }

  /** ... and a jam is no dead end: a home that completes and one tap run the press again. */
  lemma {:induction false} JamNoDeadEnd(y: System, at: Sense, f: Field, later: Sense, g: Field)
    requires Inv(y.w) && y.w.m.run == Stalled && y.w.m.geo.calibrated && JamDetectionSetUp(y.w.m)
    requires HomeCompletes(f.home)
    ensures After(y, [HomePass(at, f), RunPass(later, g)], 2).w.m.run == Running
  {
    hide Next, Inv;
    var evs := [HomePass(at, f), RunPass(later, g)];
    HomePassEnds(y, at, f);
    AlwaysInv(y, evs, 1);
    AfterStep(y, evs, 0);
    AfterStep(y, evs, 1);
    RunPassStarts(After(y, evs, 1), later, g);
  }

  /** A boot counts like a jam: without a completed search after it, the press never runs. */
  lemma {:induction false} BootRecovery(y: System, evs: seq<Event>, i: nat, j: nat)
    requires i < j <= |evs| && Inv(y.w) && evs[i].Reboot?
    ensures After(y, evs, j).w.m.run == Running ==> exists k :: i < k < j && Recovers(After(y, evs, k).w, evs[k])
  {
    hide Inv, Recovers, After, Load;
    AfterStep(y, evs, i);
    BootReady(After(y, evs, i).s.flash, evs[i].readable, evs[i].now, evs[i].ok);
    if forall k :: i + 1 <= k < j ==> !Recovers(After(y, evs, k).w, evs[k]) {
      StillRefusing(y, evs, i + 1, j);
    }
  }

  lemma AfterStep(y: System, evs: seq<Event>, i: nat)
    ensures i < |evs| ==> After(y, evs, i + 1) == Next(After(y, evs, i), evs[i])
  {
    hide Next, Ready;
  }

  // ---------------------------------------------------------------------------
  //  Gates
  // ---------------------------------------------------------------------------

  /** A start gate opens exactly when starting would begin a run, and a stop gate exactly when
      stopping would begin to stop. */
  lemma GatesRefineActions(w: World, now: int, pos: int)
    requires Inv(w)
    ensures GateStart(GateView(w.m)) == Nothing <==> w.m.run != Running && Started(w, now, pos).m.run == Running
    ensures GateAutoSg(GateView(w.m)) == Nothing <==> w.m.run != Running && AutoStarted(w, now, pos).m.run == Running
    ensures GateStop(GateView(w.m)) == Nothing <==> w.m.run != Stopping && Stopped(w, now).m.run == Stopping
    ensures GateBatchStart(GateView(w.m)) == Nothing <==>
              w.m.batch.target > 0 && w.m.run != Running && BatchStarted(w, now, pos).m.batch.active
  {
    hide FirstTarget, JamDetectionSetUp, MeasuredTrips;
  }

  /** A search gate opens exactly when the search would be carried out: refused, nothing at all
      changes; carried out, it ends idle, with a position exactly if it completes. */
  lemma SearchGatesRefineActions(w: World, h: HomeRun, c: CalRun)
    requires Inv(w)
    ensures if GateReturnHome(GateView(w.m)) == Nothing
            then Homed(w, h).m.run == Idle && (Homed(w, h).m.geo.stale <==> !HomeCompletes(h))
            else Homed(w, h) == w
    ensures if GateCalibrate(GateView(w.m)) == Nothing
            then CalibratedWorld(w, c).m.run == Idle
                 && (CalibratedWorld(w, c).m.geo.calibrated <==> CalSucceeds(c))
                 && (CalibratedWorld(w, c).m.geo.stale <==> !CalSucceeds(c) || c.parkLost)
            else CalibratedWorld(w, c) == w
  {
    hide Recomputed, CalSucceeds, UpFound, LastNudge, HomeCompletes;
    RecomputeKeeps(w.m.geo.(rawUp := 0));
    var f := if UpFound(c) then w.m.geo.(rawUp := 0, calibrated := false) else w.m.geo.(calibrated := false);
    RecomputeKeeps(f.(rawDown := c.measuredDown, calibrated := true, stale := false, upOffset := 0,
                      downOffset := DOWN_OFFSET_DEFAULT));
  }

  /** Jam detection is set up when a run begins, unless Auto SG begins it (how long it stays so
      is the subject of module JamDetection) ... */
  lemma RunsBeginGuarded(w: World, now: int, pos: int)
    requires Inv(w) && w.m.run != Running && Started(w, now, pos).m.run == Running
    ensures JamDetectionSetUp(w.m) && Started(w, now, pos).m.profiles.trips == w.m.profiles.trips
    ensures w.m.geo.calibrated && !w.m.geo.stale && w.m.run == Idle
  {
    hide FirstTarget, JamDetectionSetUp;
  }

  /** ... but a trip of the active profile set to 0 while the press runs leaves it running, and as
      long as it is 0 no reading whatever can jam it. */
  lemma TripClearedMidRun(w: World, at: Sense)
    ensures Inv(w) && w.m.run == Running ==>
              var n := w.(m := Edited(w.m, Trip(w.m.profiles.active, 0)));
              Inv(n) && n.m.run == Running && !JamDetectionSetUp(n.m) && Monitored(n, at).m.run == Running
    ensures Inv(w) && w.m.run == Running ==>
              EffectiveTrip(w.m) == 0 ==> Monitored(w, at).m.run == Running
  {
    hide Blanked, InZone, InDecelWindow, HeadingDown, StallMonitor.Count, StallMonitor.Fires, StallMonitor.Add,
         A.Stroke;
  }

  // ---------------------------------------------------------------------------
  //  Latching a jam
  // ---------------------------------------------------------------------------

  /** A jam is latched exactly on a reading above the profile's trip that completes the count,
      taken past the acceleration, outside the work zone, and outside the deceleration unless
      a jam was already suspected. */
  lemma JamExactly(w: World, at: Sense)
    ensures Inv(w) && w.m.run == Running ==>
              (Monitored(w, at).m.run == Stalled <==>
                && Samples(w.m, at) && at.sg > StallMonitor.SG_FLOOR && EffectiveTrip(w.m) > 0
                && StallMonitor.Fires(STALL, w.stall, at.sg, EffectiveTrip(w.m)))
    ensures Inv(w) && w.m.run == Running ==>
              (Monitored(w, at).m.run == Stalled ==>
                 !w.m.auto.active && at.sg > w.m.profiles.trips.At(w.m.profiles.active))
  {
    hide Blanked, InZone, InDecelWindow, HeadingDown, StallMonitor.Count, StallMonitor.Add, A.Stroke;
  }

  // ---------------------------------------------------------------------------
  //  Replaying queued toggles
  // ---------------------------------------------------------------------------

  /** What one toggle does on its own. */
  function ToggleOnce(w: World, now: int, pos: int): World {
    hide Started, Stopped, GateToggleRun, GateView;
    if GateToggleRun(GateView(w.m)) != Nothing then w
    else if CanStart(w.m.run) then Started(w, now, pos)
    else Stopped(w, now)
  }

  /** Every one of `n` toggles, refused or not. */
  function ToggleAll(w: World, n: nat, now: int, pos: int): World
    decreases n
  {
    if n == 0 then w else ToggleAll(ToggleOnce(w, now, pos), n - 1, now, pos)
  }

  lemma {:induction false} RefusedToggles(w: World, n: nat, now: int, pos: int)
    requires GateToggleRun(GateView(w.m)) != Nothing
    ensures ToggleAll(w, n, now, pos) == w
    decreases n
  {
    hide Started, Stopped, GateToggleRun, GateView;
    if n > 0 {
      RefusedToggles(w, n - 1, now, pos);
    }
  }

  /** Breaking off at the first refusal ends in the state that replaying every tap would. */
  lemma {:induction false} ToggleReplay(w: World, n: nat, now: int, pos: int)
    ensures Toggled(w, n, now, pos) == ToggleAll(w, n, now, pos)
    decreases n
  {
    hide Started, Stopped, GateToggleRun, GateView;
    if n > 0 {
      if GateToggleRun(GateView(w.m)) != Nothing {
        RefusedToggles(w, n, now, pos);
      } else {
        ToggleReplay(ToggleOnce(w, now, pos), n - 1, now, pos);
      }
    }
  }

  /** Two taps in one pass are a start and a stop, never a lone start. */
  lemma TwoTaps(w: World, now: int, pos: int)
    requires Inv(w) && GateStart(GateView(w.m)) == Nothing
    ensures Toggled(w, 2, now, pos) == Stopped(Started(w, now, pos), now)
    ensures Toggled(w, 2, now, pos).m.run == Stopping
  {
    hide FirstTarget, MeasuredTrips, JamDetectionSetUp, Toggled;
    ToggledStep(w, 2, now, pos);
    ToggledStep(Started(w, now, pos), 1, now, pos);
    ToggledStep(Stopped(Started(w, now, pos), now), 1, now, pos);
  }
}
