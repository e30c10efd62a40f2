/** What is asked for is what happens, and nothing else: the operator's profile, current, work
    zone, batch target and trips over whole runs; a pass with one request; an edit and its
    reverse; and where a home and a calibration leave the press. */
module Asked {
  import opened Config
  import opened Conservation
  import opened Measuring
  import opened MotionCmd
  import opened MotionState
  import opened MotorFsm
  import opened Numbers
  import opened RunEnds
  import opened Runs
  import opened Safety
  import opened SettingsBlob
  import opened SettingsStore
  import opened StallMonitor
  import opened Strokes
  import opened StrokeTimes
  import opened Supervisor
  import A = AutoSg
  import Endpoints
  import S = StallSearch

  // ---------------------------------------------------------------------------
  //  The operator's profile
  // ---------------------------------------------------------------------------

  lemma HandledWanted(w: World, at: Sense)
    requires Inv(w)
    ensures Wanted(Handled(w, at)) == Wanted(w)
  {
    hide Inv, Handled;
    if w.m.auto.active {
      HandledGivesBack(w, at);
    } else {
      HandledWantedPlain(w, at);
    }
  }

  lemma HandledWantedPlain(w: World, at: Sense)
    ensures Inv(w) && !w.m.auto.active ==> Wanted(Handled(w, at)) == Wanted(w)
  {
    hide MeasuredTrips, HeadingDown, Endpoints.FlipTarget, Blanked, InZone, InDecelWindow, Add, Since, Count, Fires,
         NearPos, A.Stroke;
  }

  lemma StartedWanted(w: World, now: int, pos: int)
    ensures Inv(w) ==>
              forall z :: z in {Started(w, now, pos), AutoStarted(w, now, pos), BatchStarted(w, now, pos)} ==>
                Wanted(z) == Wanted(w)
  {
    hide FirstTarget, JamDetectionSetUp, MeasuredTrips, A.Stroke;
  }

  lemma StoppedWanted(w: World, now: int)
    ensures Inv(w) ==> Wanted(Stopped(w, now)) == Wanted(w)
  {
    hide MeasuredTrips, A.Stroke;
  }

  lemma SearchWanted(w: World, h: HomeRun, c: CalRun)
    ensures Wanted(Homed(w, h)) == Wanted(w) && Wanted(CalibratedWorld(w, c)) == Wanted(w)
  {
    hide MeasuredGeometry, Recomputed, LastNudge, CalSucceeds;
  }

  lemma {:induction false} ToggledWanted(w: World, n: nat, now: int, pos: int)
    requires Inv(w)
    ensures Wanted(Toggled(w, n, now, pos)) == Wanted(w)
    decreases n
  {
    hide Inv, Started, AutoStarted, BatchStarted, Stopped, GateToggleRun, GateView, Wanted;
    if n > 0 && GateToggleRun(GateView(w.m)) == Nothing {
      StartedWanted(w, now, pos);
      StoppedWanted(w, now);
      StartedInv(w, now, pos);
      StoppedInv(w, now);
      ToggledWanted(if CanStart(w.m.run) then Started(w, now, pos) else Stopped(w, now), n - 1, now, pos);
    }
  }

  lemma SettingsWanted(w: World, idx: int, ma: int)
    ensures var z := CurrentSet(ProfileSet(w, idx), ma);
            && z.m.auto == w.m.auto
            && Wanted(z) == if 0 <= idx < NUM_PROFILES && !w.m.auto.active then idx else Wanted(w)
  {
  }

  lemma CommandedWanted(w: World, r: Requests, f: Field)
    requires Inv(w)
    ensures var z := Commanded(w, r, f);
            Wanted(z) == if 0 <= r.profile < NUM_PROFILES && !z.m.auto.active then r.profile else Wanted(w)
  {
    hide Inv, CalibratedWorld, AutoStarted, Homed, Toggled, Started, Stopped, BatchStarted, ProfileSet, CurrentSet,
         GateView, GateBatchStart, GateStop, GateReturnHome, GateAutoSg, GateCalibrate, Ready, Wanted;
    SearchWanted(w, f.home, f.cal);
    CalibratedInv(w, f.cal);
    var a := CalibrateCommand(w, r, f);
    StartedWanted(a, f.now, f.posAuto);
    AutoStartedInv(a, f.now, f.posAuto);
    var b := AutoSgCommand(a, r, f);
    SearchWanted(b, f.home, f.cal);
    HomedInv(b, f.home);
    var c := HomeCommand(b, r, f);
    ToggledWanted(c, r.toggles, f.now, f.posToggle);
    ToggledInv(c, r.toggles, f.now, f.posToggle);
    var d := Toggled(c, r.toggles, f.now, f.posToggle);
    StoppedWanted(d, f.now);
    StoppedInv(d, f.now);
    var e := StopCommand(d, r, f);
    StartedWanted(e, f.now, f.posBatch);
    SettingsWanted(BatchCommand(e, r, f), r.profile, r.currentMa);
  }

  /** One event: the operator's profile is the one asked for, unless Auto SG has it. */
  lemma NextWanted(y: System, ev: Event)
    requires Inv(y.w) && !Resets(y.w, ev)
    ensures var z := Next(y, ev).w;
            Wanted(z) == if ev.Pump? && 0 <= ev.r.profile < NUM_PROFILES && !z.m.auto.active then ev.r.profile
                         else Wanted(y.w)
  {
    hide Inv, Handled, Commanded, JamDetectionSetUp, Tick, SaveNow, Load, Edited, Wanted;
    match ev
    case Pump(at, r, f, io) =>
      HandledInv(y.w, at);
      HandledWanted(y.w, at);
      CommandedWanted(Handled(y.w, at), r, f);
    case Write(e, now, ok) =>
      EditWanted(y.w, e);
  }

  lemma EditWanted(w: World, e: Edit)
    ensures Edited(w.m, e).profiles.Valid() && Wanted(w.(m := Edited(w.m, e))) == Wanted(w)
  {
    hide Edited;
    EditKeepsProfiles(w.m, e);
  }

  /** The profile last asked for while Auto SG was not measuring, or since then brought up by a
      reset or a boot. */
  function LastAsked(y: System, evs: seq<Event>, n: nat): int
    requires n <= |evs|
  {
    hide Next, Ready, Resets;
    if n == 0 then Wanted(y.w)
    else
      var w, ev := After(y, evs, n - 1).w, evs[n - 1];
      if Resets(w, ev) then After(y, evs, n).w.m.profiles.active
      else if ev.Pump? && 0 <= ev.r.profile < NUM_PROFILES && !After(y, evs, n).w.m.auto.active then ev.r.profile
      else LastAsked(y, evs, n - 1)
  }

  lemma ResetIsPlain(y: System, ev: Event)
    requires Inv(Next(y, ev).w) && Resets(y.w, ev)
    ensures Wanted(Next(y, ev).w) == Next(y, ev).w.m.profiles.active
  {
    hide Handled, Commanded, Tick, SaveNow, Load, Edited, Recomputed, Written, Capture, A.Stroke, MeasuredTrips;
    if ev.Reboot? {
      BootReady(y.s.flash, ev.readable, ev.now, ev.ok);
    }
  }

  /** In any run the operator's profile is the one last asked for, through jams, stops, homes and
      Auto SG; and it is the active one whenever the press is not running. */
  lemma {:induction false} ProfileAsAsked(y: System, evs: seq<Event>, n: nat)
    requires n <= |evs| && Inv(y.w)
    ensures var w := After(y, evs, n).w;
            Wanted(w) == LastAsked(y, evs, n) && (w.m.run != Running ==> w.m.profiles.active == LastAsked(y, evs, n))
  {
    hide Next, Resets, Ready, A.Stroke;
    if n > 0 {
      ProfileAsAsked(y, evs, n - 1);
      AlwaysInv(y, evs, n - 1);
      NextInv(After(y, evs, n - 1), evs[n - 1]);
      if Resets(After(y, evs, n - 1).w, evs[n - 1]) {
        ResetIsPlain(After(y, evs, n - 1), evs[n - 1]);
      } else {
        NextWanted(After(y, evs, n - 1), evs[n - 1]);
      }
    }
  }

  lemma HandledLands(w: World, at: Sense)
    requires Inv(w) && w.m.run == Running && !w.m.auto.active && !at.moving && Handled(w, at).m.run == Running
    ensures Handled(w, at).m.profiles.active == Wanted(w) && Handled(w, at).m.profiles.pending == -1
  {
    hide MeasuredTrips, HeadingDown, Endpoints.FlipTarget, Since, A.Stroke, BatchCounted;
  }

  lemma SettingsKeepActive(w: World, idx: int, ma: int)
    ensures w.m.run == Running ==>
              CurrentSet(ProfileSet(w, idx), ma).m.profiles.active == w.m.profiles.active
  {
  }

  /** In any run a profile asked for during a stroke takes effect at the next turn: the stroke after
      it goes at the speed of the one asked for last before it. */
  lemma {:induction false} QueuedLands(y: System, evs: seq<Event>, n: nat)
    requires n < |evs| && Inv(y.w)
    ensures var w, z, p := After(y, evs, n).w, After(y, evs, n + 1).w, LastAsked(y, evs, n);
            Turns(w, evs[n]) && !w.m.auto.active && z.m.run == Running ==>
              z.m.profiles.active == p && 0 <= p < NUM_PROFILES && z.drive.speedHz == SPEED_HZ.At(p)
  {
    hide Inv, Next, LastAsked, Handled, Commanded, ResetCommand, Tick, Stopped, ProfileSet, CurrentSet, Turns, RunsOn,
         Wanted, After;
    AlwaysInv(y, evs, n);
    AlwaysInv(y, evs, n + 1);
    var v, ev := After(y, evs, n), evs[n];
    if Turns(v.w, ev) && !v.w.m.auto.active && After(y, evs, n + 1).w.m.run == Running {
      TurnsPump(v.w, ev);
      ProfileAsAsked(y, evs, n);
      HandledInv(v.w, ev.at);
      HandledLands(v.w, ev.at);
      LandsInPass(v, ev);
      AfterStep(y, evs, n);
      RunningDriven(After(y, evs, n + 1).w);
    }
  }

  lemma TurnsPump(w: World, ev: Event)
    ensures Turns(w, ev) ==>
              ev.Pump? && !ev.at.moving && w.m.run == Running && Handled(w, ev.at).m.run == Running
  {
    hide Handled;
  }

  lemma RunningDriven(w: World)
    ensures Inv(w) && w.m.run == Running ==> w.drive.speedHz == SPEED_HZ.At(w.m.profiles.active)
  {
    hide A.Stroke;
  }

  lemma LandsInPass(y: System, ev: Event)
    requires Inv(y.w) && ev.Pump? && Handled(y.w, ev.at).m.run == Running
    ensures Next(y, ev).w.m.run == Running ==>
              Next(y, ev).w.m.profiles.active == Handled(y.w, ev.at).m.profiles.active
  {
    hide Inv, Handled, Commanded, ResetCommand, Tick, Stopped, ProfileSet, CurrentSet;
    HandledInv(y.w, ev.at);
    var a, r, f := Handled(y.w, ev.at), ev.r, ev.f;
    RunningCommands(a, r, f);
    ResetLeavesIdle(y.(w := Commanded(a, r, f)), r, ev.io);
    if r.toggles > 0 || r.stop {
      StopsRunning(a, f.now);
      SettingsKeepTarget(Stopped(a, f.now), r.profile, r.currentMa);
    } else {
      SettingsKeepActive(a, r.profile, r.currentMa);
    }
  }

  // ---------------------------------------------------------------------------
  //  The other settings
  // ---------------------------------------------------------------------------

  datatype Setting = RunCurrent | Zone | Target

  function Value(m: Motion, s: Setting): int {
    match s
    case RunCurrent => m.runCurrentMa
    case Zone => m.workZone
    case Target => m.batch.target
  }

  /** The value `v` of a setting after what one event asks for. */
  function AskedFor(s: Setting, v: int, ev: Event): int {
    match s
    case RunCurrent =>
      if ev.Pump? && ev.r.currentMa >= 0 then Clamp(ev.r.currentMa, RUN_CURRENT_MIN, RUN_CURRENT_MAX) else v
    case Zone => if ev.Write? && ev.e.WorkZone? then Clamp(v + ev.e.delta, SG_WORK_ZONE_MIN, SG_WORK_ZONE_MAX) else v
    case Target =>
      if ev.Write? && ev.e.BatchTarget? then Clamp(v + ev.e.delta, 0, BATCH_TARGET_MAX)
      else if ev.Write? && ev.e.BatchClear? then 0
      else v
  }

  /** The values no operation of the supervisor touches. */
  predicate SameValues(m: Motion, n: Motion) {
    n.runCurrentMa == m.runCurrentMa && n.workZone == m.workZone && n.batch.target == m.batch.target
  }

  predicate SameTrips(m: Motion, n: Motion) {
    n.profiles.trips == m.profiles.trips && n.profiles.calCurrentMa == m.profiles.calCurrentMa
  }

  lemma HandledValues(w: World, at: Sense)
    ensures SameValues(w.m, Handled(w, at).m)
  {
    hide MeasuredTrips, HeadingDown, Endpoints.FlipTarget, Blanked, InZone, InDecelWindow, Add, Since, Count, Fires,
         NearPos, A.Stroke, A.StrokeDone, A.Result;
  }

  lemma StartedValues(w: World, now: int, pos: int)
    ensures forall z :: z in {Started(w, now, pos), AutoStarted(w, now, pos), BatchStarted(w, now, pos)} ==>
              SameValues(w.m, z.m) && SameTrips(w.m, z.m)
  {
    hide FirstTarget, JamDetectionSetUp, MeasuredTrips;
  }

  lemma EndedValues(w: World, now: int, h: HomeRun, c: CalRun)
    ensures SameValues(w.m, Stopped(w, now).m) && SameValues(w.m, Homed(w, h).m)
    ensures SameValues(w.m, CalibratedWorld(w, c).m) && SameTrips(w.m, CalibratedWorld(w, c).m)
    ensures SameTrips(w.m, Stopped(w, now).m) && SameTrips(w.m, Homed(w, h).m)
  {
    hide MeasuredTrips, MeasuredGeometry, Recomputed, LastNudge, CalSucceeds;
  }

  lemma {:induction false} ToggledValues(w: World, n: nat, now: int, pos: int, h: HomeRun, c: CalRun)
    ensures SameValues(w.m, Toggled(w, n, now, pos).m) && SameTrips(w.m, Toggled(w, n, now, pos).m)
    decreases n
  {
    hide Started, AutoStarted, BatchStarted, Stopped, Homed, CalibratedWorld, GateToggleRun, GateView;
    if n > 0 && GateToggleRun(GateView(w.m)) == Nothing {
      StartedValues(w, now, pos);
      EndedValues(w, now, h, c);
      ToggledValues(if CanStart(w.m.run) then Started(w, now, pos) else Stopped(w, now), n - 1, now, pos, h, c);
    }
  }

  lemma SettingsValues(w: World, idx: int, ma: int)
    ensures var n := CurrentSet(ProfileSet(w, idx), ma).m;
            && n.workZone == w.m.workZone && n.batch.target == w.m.batch.target && SameTrips(w.m, n)
            && n.runCurrentMa == if ma < 0 then w.m.runCurrentMa else Clamp(ma, RUN_CURRENT_MIN, RUN_CURRENT_MAX)
  {
  }

  lemma CommandedValues(w: World, r: Requests, f: Field)
    ensures var n := Commanded(w, r, f).m;
            && n.workZone == w.m.workZone && n.batch.target == w.m.batch.target && SameTrips(w.m, n)
            && n.runCurrentMa == if r.currentMa < 0 then w.m.runCurrentMa
                                 else Clamp(r.currentMa, RUN_CURRENT_MIN, RUN_CURRENT_MAX)
  {
    hide CalibratedWorld, AutoStarted, Homed, Toggled, Started, Stopped, BatchStarted, ProfileSet, CurrentSet,
         GateView, GateBatchStart, GateStop, GateReturnHome, GateAutoSg, GateCalibrate, Ready;
    EndedValues(w, f.now, f.home, f.cal);
    var a := CalibrateCommand(w, r, f);
    StartedValues(a, f.now, f.posAuto);
    var b := AutoSgCommand(a, r, f);
    EndedValues(b, f.now, f.home, f.cal);
    var c := HomeCommand(b, r, f);
    ToggledValues(c, r.toggles, f.now, f.posToggle, f.home, f.cal);
    var d := Toggled(c, r.toggles, f.now, f.posToggle);
    EndedValues(d, f.now, f.home, f.cal);
    var e := StopCommand(d, r, f);
    StartedValues(e, f.now, f.posBatch);
    SettingsValues(BatchCommand(e, r, f), r.profile, r.currentMa);
  }

  lemma NextValues(y: System, ev: Event, s: Setting)
    requires !Resets(y.w, ev)
    ensures Value(Next(y, ev).w.m, s) == AskedFor(s, Value(y.w.m, s), ev)
  {
    hide Handled, Commanded, JamDetectionSetUp, Tick, SaveNow, Load, Recomputed;
    match ev
    case Pump(at, r, f, io) =>
      HandledValues(y.w, at);
      CommandedValues(Handled(y.w, at), r, f);
    case Write(e, now, ok) =>
  }

  /** What was asked of a setting from event `i` to event `j`, one after the other. */
  function AskedIn(s: Setting, v: int, evs: seq<Event>, i: nat, j: nat): int
    requires i <= j <= |evs|
    decreases j
  {
    if i == j then v else AskedFor(s, AskedIn(s, v, evs, i, j - 1), evs[j - 1])
  }

  /** Over any run without a reset, run current, work zone and batch target become exactly what was
      asked for on the way, whatever the press does meanwhile. */
  lemma {:induction false} SettingsAsAsked(y: System, evs: seq<Event>, i: nat, j: nat, s: Setting)
    requires i <= j <= |evs|
    ensures (forall k :: i <= k < j ==> !Resets(After(y, evs, k).w, evs[k])) ==>
              Value(After(y, evs, j).w.m, s) == AskedIn(s, Value(After(y, evs, i).w.m, s), evs, i, j)
    decreases j
  {
    hide Next, Resets, Ready, AskedFor, Value;
    if i < j && forall k :: i <= k < j ==> !Resets(After(y, evs, k).w, evs[k]) {
      SettingsAsAsked(y, evs, i, j - 1, s);
      NextValues(After(y, evs, j - 1), evs[j - 1], s);
    }
  }

  /** A batch that is cleared is gone: the press goes on as it was, no stroke completes it any more,
      and another one needs a target first. */
  lemma BatchCleared(m: Motion)
    ensures var n := Edited(m, BatchClear);
            && n.run == m.run && !CompletesBatch(n) && n.batch.count == n.batch.target == 0
            && GateBatchStart(GateView(n)) == NoBatchTarget
  {
    hide HeadingDown;
  }

  /** Where a trip changes: by an edit of it within the range, or when Auto SG completes. */
  predicate EditsTrip(ev: Event) {
    ev.Write? && ev.e.Trip? && 0 <= ev.e.profile < NUM_PROFILES && 0 <= ev.e.value <= 1023
  }

  predicate Measures(w: World, ev: Event)
    requires w.sg.Valid()
  {
    ev.Pump? && w.m.auto.active && !ev.at.moving && Completes(w) && !TimedOut(w, ev.at.now)
  }

  lemma NextTrips(y: System, ev: Event)
    requires Inv(y.w) && !Resets(y.w, ev) && !Measures(y.w, ev)
    ensures var t := y.w.m.profiles.trips;
            Next(y, ev).w.m.profiles.trips == if EditsTrip(ev) then t.With(ev.e.profile, ev.e.value) else t
  {
    hide Inv, Handled, Commanded, JamDetectionSetUp, Tick, SaveNow, Load, Recomputed, Completes, TimedOut;
    match ev
    case Pump(at, r, f, io) =>
      if y.w.m.auto.active {
        HandledGivesBack(y.w, at);
      } else {
        HandledKeepsTrips(y.w, at);
      }
      CommandedValues(Handled(y.w, at), r, f);
    case Write(e, now, ok) =>
  }

  /** What the edits of profile `p`'s trip from event `i` to event `j` leave of `v`. */
  function TripAfter(p: nat, v: int, evs: seq<Event>, i: nat, j: nat): int
    requires i <= j <= |evs|
    decreases j
  {
    if i == j then v
    else if EditsTrip(evs[j - 1]) && evs[j - 1].e.profile == p then evs[j - 1].e.value
    else TripAfter(p, v, evs, i, j - 1)
  }

  /** Over any run without a reset and without a completed Auto SG every profile's trip is the one last
      set for it, within 0 to 1023. */
  lemma {:induction false} TripsAsAsked(y: System, evs: seq<Event>, i: nat, j: nat, p: nat)
    requires i <= j <= |evs| && Inv(y.w) && p < NUM_PROFILES
    ensures (forall k :: i <= k < j ==>
               !Resets(After(y, evs, k).w, evs[k]) && !Measures(After(y, evs, k).w, evs[k])) ==>
              After(y, evs, j).w.m.profiles.trips.At(p)
              == TripAfter(p, After(y, evs, i).w.m.profiles.trips.At(p), evs, i, j)
    decreases j
  {
    hide Next, Resets, Measures, Inv;
    if i < j
       && forall k :: i <= k < j ==>
            !Resets(After(y, evs, k).w, evs[k]) && !Measures(After(y, evs, k).w, evs[k]) {
      TripsAsAsked(y, evs, i, j - 1, p);
      AlwaysInv(y, evs, j - 1);
      NextTrips(After(y, evs, j - 1), evs[j - 1]);
    }
  }

  // ---------------------------------------------------------------------------
  //  Single requests
  // ---------------------------------------------------------------------------

  /** Where a run may be asked for: idle, calibrated, referenced, and with every trip set. */
  predicate FitToRun(m: Motion) {
    && m.run == Idle && m.geo.calibrated && !m.geo.stale
    && m.profiles.trips.slow != 0 && m.profiles.trips.normal != 0 && m.profiles.trips.fast != 0
  }

  /** What is not asked for is not done. */
  lemma Unasked(w: World, r: Requests, f: Field)
    ensures !r.calibrate ==> CalibrateCommand(w, r, f) == w
    ensures !r.autoSg ==> AutoSgCommand(w, r, f) == w
    ensures !r.returnHome ==> HomeCommand(w, r, f) == w
    ensures Toggled(w, 0, f.now, f.posToggle) == w
    ensures !r.stop ==> StopCommand(w, r, f) == w
    ensures !r.batchStart ==> BatchCommand(w, r, f) == w
    ensures r.profile < 0 ==> ProfileSet(w, r.profile) == w
    ensures r.currentMa < 0 ==> CurrentSet(w, r.currentMa) == w
  {
    hide CalibratedWorld, AutoStarted, Homed, Started, Stopped, BatchStarted, GateView, GateCalibrate, GateAutoSg,
         GateReturnHome, GateStop, GateBatchStart;
  }

  /** A pass without a request does nothing, and one with a single request does that, where the
      state of the press allows it, and nothing else. */
  lemma SoleRequest(w: World, f: Field)
    requires Inv(w)
    ensures Commanded(w, NO_REQUESTS, f) == w
    ensures Commanded(w, NO_REQUESTS.(calibrate := true), f)
         == if w.m.run == Idle then CalibratedWorld(w, f.cal) else w
    ensures Commanded(w, NO_REQUESTS.(returnHome := true), f)
         == if w.m.run in {Idle, Stalled} then Homed(w, f.home) else w
    ensures Commanded(w, NO_REQUESTS.(autoSg := true), f)
         == if w.m.run == Idle && w.m.geo.calibrated && !w.m.geo.stale then AutoStarted(w, f.now, f.posAuto) else w
    ensures Commanded(w, NO_REQUESTS.(stop := true), f) == if w.m.run == Running then Stopped(w, f.now) else w
    ensures Commanded(w, NO_REQUESTS.(batchStart := true), f)
         == if FitToRun(w.m) && w.m.batch.target > 0 then BatchStarted(w, f.now, f.posBatch) else w
    ensures Commanded(w, NO_REQUESTS.(toggles := 1), f)
         == if FitToRun(w.m) then Started(w, f.now, f.posToggle)
            else if w.m.run == Running then Stopped(w, f.now) else w
  {
    hide CalibrateCommand, AutoSgCommand, HomeCommand, StopCommand, BatchCommand, Toggled, ProfileSet, CurrentSet,
         CalibratedWorld, AutoStarted, Homed, Started, Stopped, BatchStarted, Inv;
    Unasked(w, NO_REQUESTS, f);
    SoleSearch(w, f);
    SoleRun(w, f);
    SoleToggle(w, f);
  }

  lemma SoleSearch(w: World, f: Field)
    ensures Commanded(w, NO_REQUESTS.(calibrate := true), f)
         == if w.m.run == Idle then CalibratedWorld(w, f.cal) else w
    ensures Commanded(w, NO_REQUESTS.(returnHome := true), f)
         == if w.m.run in {Idle, Stalled} then Homed(w, f.home) else w
  {
    hide AutoSgCommand, StopCommand, BatchCommand, Toggled, ProfileSet, CurrentSet, CalibratedWorld, Homed,
         JamDetectionSetUp;
    var r, q := NO_REQUESTS.(calibrate := true), NO_REQUESTS.(returnHome := true);
    Unasked(w, r, f);
    Unasked(CalibrateCommand(w, r, f), r, f);
    Unasked(w, q, f);
    Unasked(HomeCommand(w, q, f), q, f);
  }

  lemma SoleRun(w: World, f: Field)
    requires Inv(w)
    ensures Commanded(w, NO_REQUESTS.(autoSg := true), f)
         == if w.m.run == Idle && w.m.geo.calibrated && !w.m.geo.stale then AutoStarted(w, f.now, f.posAuto) else w
    ensures Commanded(w, NO_REQUESTS.(stop := true), f) == if w.m.run == Running then Stopped(w, f.now) else w
    ensures Commanded(w, NO_REQUESTS.(batchStart := true), f)
         == if FitToRun(w.m) && w.m.batch.target > 0 then BatchStarted(w, f.now, f.posBatch) else w
  {
    hide CalibrateCommand, HomeCommand, Toggled, ProfileSet, CurrentSet, AutoStarted, Stopped, BatchStarted, Inv;
    var r, q, b := NO_REQUESTS.(autoSg := true), NO_REQUESTS.(stop := true), NO_REQUESTS.(batchStart := true);
    Unasked(w, r, f);
    Unasked(AutoSgCommand(w, r, f), r, f);
    Unasked(w, q, f);
    Unasked(StopCommand(w, q, f), q, f);
    Unasked(w, b, f);
    Unasked(BatchCommand(w, b, f), b, f);
  }

  lemma SoleToggle(w: World, f: Field)
    ensures Commanded(w, NO_REQUESTS.(toggles := 1), f)
         == if FitToRun(w.m) then Started(w, f.now, f.posToggle)
            else if w.m.run == Running then Stopped(w, f.now) else w
  {
    hide CalibrateCommand, AutoSgCommand, HomeCommand, StopCommand, BatchCommand, Toggled, ProfileSet, CurrentSet,
         Started, Stopped;
    var r := NO_REQUESTS.(toggles := 1);
    Unasked(w, r, f);
    ToggledStep(w, 1, f.now, f.posToggle);
    Unasked(Started(w, f.now, f.posToggle), r, f);
    Unasked(Stopped(w, f.now), r, f);
  }

  /** A profile alone: queued while an ordinary run goes on, ignored by Auto SG and out of range, and
      otherwise active at once, with its speed. A current alone is clamped. */
  lemma SoleSetting(w: World, f: Field, idx: int, ma: int)
    requires Inv(w)
    ensures var z := Commanded(w, NO_REQUESTS.(profile := idx), f); var p := z.m.profiles;
            if !(0 <= idx < NUM_PROFILES) || w.m.auto.active then z == w
            else if w.m.run == Running then z == w.(m := z.m) && p == w.m.profiles.(pending := idx)
            else
              && p == w.m.profiles.(active := idx) && p.pending == -1
              && z.drive == w.drive.(speedHz := SPEED_HZ.At(idx))
    ensures var z := Commanded(w, NO_REQUESTS.(currentMa := ma), f);
            z == w.(m := w.m.(runCurrentMa := if ma < 0 then w.m.runCurrentMa
                                              else Clamp(ma, RUN_CURRENT_MIN, RUN_CURRENT_MAX)))
  {
    hide CalibrateCommand, AutoSgCommand, HomeCommand, StopCommand, BatchCommand, Toggled, A.Stroke;
    Unasked(w, NO_REQUESTS.(profile := idx), f);
    Unasked(ProfileSet(w, idx), NO_REQUESTS.(profile := idx), f);
    Unasked(w, NO_REQUESTS.(currentMa := ma), f);
  }
}
