/** Power-cut safety of the whole machine: whatever the press does, whoever edits what and
    whichever flash operations fail, a reboot restores exactly what was last written. */
module SystemPowerCut {
  import opened Config
  import opened Endpoints
  import opened MotionCmd
  import opened MotionState
  import opened MotorFsm
  import opened Numbers
  import opened PowerCut
  import opened Runs
  import opened SettingsBlob
  import opened SettingsStore
  import opened StallMonitor
  import opened Supervisor
  import A = AutoSg
  import Search = StallSearch

  /** How far a recomputation can push the DOWN offset to keep the endpoints apart. */
  const DOWN_OFFSET_LIMIT := 2 * CAL_SEARCH_STEPS + OFFSET_MAX + ENDPOINT_GUARD

  predicate GeometryBounded(g: Geometry) {
    && -CAL_SEARCH_STEPS <= g.rawUp <= CAL_SEARCH_STEPS && -CAL_SEARCH_STEPS <= g.rawDown <= I32_MAX
    && OFFSETS.Allows(g.upOffset) && OFFSET_MIN <= g.downOffset <= DOWN_OFFSET_LIMIT && Settled(g)
  }

  ghost predicate ProfilesBounded(p: Profiles) {
    && 0 <= p.active < NUM_PROFILES && -1 <= p.pending < NUM_PROFILES && p.trips.In(RUN_SG_TRIP_MIN, RUN_SG_TRIP_MAX)
    && (p.calCurrentMa == 0 || RUN_CURRENT_MIN <= p.calCurrentMa <= RUN_CURRENT_MAX)
  }

  ghost predicate HealthBounded(h: Lifetime, lifetimeCycles: int) {
    FitsHealth(h, lifetimeCycles)
  }

  /** Every setting is within the bounds its setters enforce. */
  ghost predicate Bounded(m: Motion) {
    && GeometryBounded(m.geo) && ProfilesBounded(m.profiles) && HealthBounded(m.health, m.lifetimeCycles)
    && RUN_CURRENT_MIN <= m.runCurrentMa <= RUN_CURRENT_MAX && SG_WORK_ZONE_MIN <= m.workZone <= SG_WORK_ZONE_MAX
    && 0 <= m.counter <= I32_MAX
  }

  /** The saved endpoints that survive a reboot: within the search distance and the offset's
      limit, and those of a calibrated machine with more than twice the guard between them. */
  predicate TravelSurvives(p: V4) {
    var b := p.v3.v2.v1;
    && b.rawDown <= CAL_SEARCH_STEPS && b.downOffset <= OFFSET_MAX
    && (b.calibrated != 0 ==> 2 * ENDPOINT_GUARD < b.rawDown - b.rawUp <= CAL_SEARCH_STEPS)
  }

  /** What becomes of a saved state. */
  function Survivor(p: V4): V4 {
    if TravelSurvives(p) then p else Capture(DEFAULTS)
  }

  lemma BoundedFits(m: Motion)
    ensures Bounded(m) ==> FitsV4(Capture(m)) && Settled(m.geo)
    ensures Bounded(m) ==> (ValidateV4(Capture(m)) <==> TravelSurvives(Capture(m)))
  {
    hide Settled;
  }

  /** A written state survives a reboot if and only if its travel does. */
  lemma {:induction false} WrittenSurvives(m: Motion)
    requires Bounded(m)
    ensures Restore(Some(Image(Capture(m)))) == Survivor(Capture(m))
  {
    hide Image, Restore, Capture, FitsV4, ValidateV4, Settled, TravelSurvives, Bounded;
    BoundedFits(m);
    WrittenRestored(m);
    if !TravelSurvives(Capture(m)) {
      RejectedRestored(m);
    }
  }

  /** While the machine is calibrated its offsets take care of themselves: the travel decides. */
  lemma TravelDecides(m: Motion)
    requires Bounded(m) && m.geo.calibrated
    ensures var g := m.geo;
            TravelSurvives(Capture(m)) <==>
              g.rawDown <= CAL_SEARCH_STEPS && 2 * ENDPOINT_GUARD < g.rawDown - g.rawUp <= CAL_SEARCH_STEPS
  {
  }

  lemma GeometryRecomputed(g: Geometry)
    requires -CAL_SEARCH_STEPS <= g.rawUp <= CAL_SEARCH_STEPS && -CAL_SEARCH_STEPS <= g.rawDown <= I32_MAX
    requires OFFSETS.Allows(g.upOffset) && OFFSET_MIN <= g.downOffset <= DOWN_OFFSET_LIMIT
    ensures GeometryBounded(Recomputed(g))
  {
  }

  lemma StaleIgnored(g: Geometry, stale: bool)
    requires GeometryBounded(g)
    ensures GeometryBounded(g.(stale := stale))
  {
    hide Recomputed;
    SameOffsets(g, g.(stale := stale));
  }

  lemma StoppedBounded(w: World, now: int)
    ensures Bounded(w.m) ==> Bounded(Stopped(w, now).m)
  {
    hide MeasuredTrips, GeometryBounded, HealthBounded;
  }

  lemma StartedBounded(w: World, now: int, pos: int)
    ensures Bounded(w.m) ==> Bounded(Started(w, now, pos).m) && Bounded(AutoStarted(w, now, pos).m)
  {
    hide MeasuredTrips, GeometryBounded, HealthBounded, FirstTarget, JamDetectionSetUp;
  }

  lemma TripsInRange(sg: A.Auto)
    ensures sg.Valid() ==> MeasuredTrips(sg).In(RUN_SG_TRIP_MIN, RUN_SG_TRIP_MAX)
  {
  }

  lemma AutoEndedBounded(w: World, ok: bool)
    requires Bounded(w.m) && (ok ==> w.m.runCurrentMa == w.saved.currentMa)
    ensures Bounded(AutoEnded(w, ok).m)
  {
    hide MeasuredTrips, GeometryBounded, HealthBounded;
    TripsInRange(w.sg);
  }

  lemma AutoStrokeBounded(w: World, now: int)
    requires Bounded(w.m)
    ensures Bounded(AutoStroke(w, now).m)
  {
    hide AutoEnded, GeometryBounded, HealthBounded, A.StrokeDone, A.Result, A.Stroke;
    AutoEndedBounded(StrokeFed(w), false);
    if w.m.runCurrentMa == w.saved.currentMa {
      AutoEndedBounded(StrokeFed(w), true);
    }
  }

  lemma TurnedBounded(w: World, now: int)
    ensures Bounded(w.m) ==> Bounded(Turned(w, now).m)
  {
    hide GeometryBounded, HealthBounded, FlipTarget;
  }

  lemma CountedBounded(m: Motion, strokeMs: nat)
    ensures Bounded(m) && strokeMs < U32 ==> Bounded(StrokeCounted(m, strokeMs))
  {
    hide GeometryBounded;
  }

  lemma {:induction false} ArrivedBounded(w: World, now: int)
    requires Bounded(w.m)
    ensures Bounded(Arrived(w, now).m)
  {
    hide Bounded, Stopped, Turned, AutoStroke, StrokeCounted, HeadingDown, AutoEnds, CompletesBatch;
    CountedBounded(w.m, Since(now, w.m.lastChangeMs));
    CountedKeeps(w.m, Since(now, w.m.lastChangeMs));
    var a := if Counts(w.m) then w.(m := StrokeCounted(w.m, Since(now, w.m.lastChangeMs))) else w;
    StoppedBounded(a, now);
    TurnedBounded(StrokeReset(a), now);
    AutoStrokeBounded(a, now);
    var b := StrokeReset(AutoStroke(a, now));
    StoppedBounded(b, now);
    TurnedBounded(b, now);
  }

  lemma MonitoredBounded(w: World, at: Sense)
    requires Bounded(w.m)
    ensures Bounded(Monitored(w, at).m)
  {
    hide GeometryBounded, Blanked, InZone, InDecelWindow, HeadingDown, Fires, Count, Add;
    StaleIgnored(w.m.geo, true);
  }

  lemma {:induction false} HandledBounded(w: World, at: Sense)
    requires Bounded(w.m)
    ensures Bounded(Handled(w, at).m)
  {
    hide Stopped, Arrived, Monitored, GeometryBounded, HealthBounded, ProfilesBounded, AutoEnded, Since, NearPos;
    AutoEndedBounded(w, false);
    StoppedBounded(AutoEnded(w, false), at.now);
    ArrivedBounded(w, at.now);
    MonitoredBounded(w, at);
  }

  lemma HomedBounded(w: World, h: HomeRun)
    requires Bounded(w.m)
    ensures Bounded(Homed(w, h).m)
  {
    hide Recomputed, Settled, HealthBounded, ProfilesBounded, GeometryBounded;
    HomeGeometry(w.m.geo, h);
  }

  lemma HomeGeometry(g: Geometry, h: HomeRun)
    requires GeometryBounded(g)
    ensures var n := if h.search == Search.Found then Recomputed(g.(rawUp := 0)) else g;
            GeometryBounded(n.(stale := !HomeCompletes(h)))
  {
    hide Recomputed, Settled;
    GeometryRecomputed(g.(rawUp := 0));
    StaleIgnored(g, !HomeCompletes(h));
    StaleIgnored(Recomputed(g.(rawUp := 0)), !HomeCompletes(h));
  }

  /** A completed home takes the UP endpoint to 0 but leaves DOWN where it was stored, so endpoints
      restored with UP elsewhere survive the next reboot if and only if DOWN alone is far enough. */
  lemma HomeMovesUp(w: World, h: HomeRun)
    requires Bounded(w.m) && w.m.run == Idle && w.m.geo.calibrated && HomeCompletes(h)
    ensures TravelSurvives(Capture(Homed(w, h).m)) <==> 2 * ENDPOINT_GUARD < w.m.geo.rawDown <= CAL_SEARCH_STEPS
  {
    hide Recomputed, Settled, HealthBounded, ProfilesBounded, GeometryBounded, Bounded, Capture, TravelSurvives;
    HomedBounded(w, h);
    RecomputeKeeps(w.m.geo.(rawUp := 0));
    TravelDecides(Homed(w, h).m);
  }

  /** Positions have 32 bits. */
  predicate Measurable(c: CalRun) {
    IsI32(c.measuredDown)
  }

  lemma CalibratedBounded(w: World, c: CalRun)
    requires Bounded(w.m) && Measurable(c)
    ensures Bounded(CalibratedWorld(w, c).m)
  {
    hide Recomputed, Settled, ProfilesBounded, GeometryBounded, MeasuredGeometry, CalSucceeds, LastNudge;
    MeasuredBounded(w.m.geo, c);
  }

  lemma MeasuredBounded(g: Geometry, c: CalRun)
    requires GeometryBounded(g) && Measurable(c)
    ensures GeometryBounded(MeasuredGeometry(g, c))
  {
    hide Recomputed, UpFound;
    if CalSucceeds(c) {
      var f := if UpFound(c) then g.(rawUp := 0, calibrated := false) else g.(calibrated := false);
      var n := f.(rawDown := c.measuredDown, calibrated := true, stale := false, upOffset := 0,
                  downOffset := DOWN_OFFSET_DEFAULT);
      GeometryRecomputed(n);
      StaleIgnored(Recomputed(n), c.parkLost);
    }
  }

  lemma {:induction false} ToggledBounded(w: World, n: nat, now: int, pos: int)
    requires Bounded(w.m)
    ensures Bounded(Toggled(w, n, now, pos).m)
    decreases n
  {
    hide Bounded, Started, AutoStarted, Stopped, GateToggleRun, GateView;
    if n > 0 && GateToggleRun(GateView(w.m)) == Nothing {
      StartedBounded(w, now, pos);
      StoppedBounded(w, now);
      ToggledBounded(if CanStart(w.m.run) then Started(w, now, pos) else Stopped(w, now), n - 1, now, pos);
    }
  }

  lemma SettingsBounded(w: World, idx: int, ma: int)
    ensures Bounded(w.m) ==> Bounded(CurrentSet(ProfileSet(w, idx), ma).m)
  {
    hide GeometryBounded, HealthBounded;
  }

  lemma BatchBounded(w: World, now: int, pos: int)
    requires Bounded(w.m)
    ensures Bounded(BatchStarted(w, now, pos).m)
  {
    hide GeometryBounded, HealthBounded, ProfilesBounded, Started, AutoStarted;
    StartedBounded(w, now, pos);
  }

  lemma CommandedBounded(w: World, r: Requests, f: Field)
    requires Bounded(w.m) && (r.calibrate ==> Measurable(f.cal))
    ensures Bounded(Commanded(w, r, f).m)
  {
    hide Bounded, CalibratedWorld, AutoStarted, Started, Homed, Toggled, Stopped, BatchStarted, ProfileSet, CurrentSet,
         GateView, GateBatchStart, GateStop, GateReturnHome, GateAutoSg, GateCalibrate, Measurable;
    if r.calibrate {
      CalibratedBounded(w, f.cal);
    }
    var a := CalibrateCommand(w, r, f);
    StartedBounded(a, f.now, f.posAuto);
    var b := AutoSgCommand(a, r, f);
    HomedBounded(b, f.home);
    var c := HomeCommand(b, r, f);
    ToggledBounded(c, r.toggles, f.now, f.posToggle);
    var d := Toggled(c, r.toggles, f.now, f.posToggle);
    StoppedBounded(d, f.now);
    var e := StopCommand(d, r, f);
    BatchBounded(e, f.now, f.posBatch);
    SettingsBounded(BatchCommand(e, r, f), r.profile, r.currentMa);
  }

  lemma EditedBounded(m: Motion, e: Edit)
    requires Bounded(m)
    ensures Bounded(Edited(m, e))
  {
    hide Recomputed, Settled;
    GeometryRecomputed(m.geo);
    match e
    case UpOffset(d) => GeometryRecomputed(m.geo.(upOffset := Clamp(m.geo.upOffset + d, OFFSET_MIN, OFFSET_MAX)));
    case DownOffset(d) => GeometryRecomputed(m.geo.(downOffset := Clamp(m.geo.downOffset + d, OFFSET_MIN, OFFSET_MAX)));
    case _ =>
  }

  lemma DefaultsBounded(m: Motion)
    requires -1 <= m.profiles.pending < NUM_PROFILES
    ensures Bounded(Resettled(WithDefaults(m)))
  {
    hide Settled;
    GeometryRecomputed(WithDefaults(m).geo);
  }

  // ---------------------------------------------------------------------------
  //  The store along with the machine
  // ---------------------------------------------------------------------------

  /** The settings are within their bounds. */
  ghost predicate Kept(y: System) {
    Bounded(y.w.m)
  }

  /** In step: a reboot would restore what was last saved, as far as it survives one. */
  ghost predicate InStep(s: Store) {
    Restore(s.flash) == Survivor(s.lastSaved)
  }

  /** A write or an erase has taken effect. */
  predicate TookEffect(s: Store, t: Store) {
    t.flash != s.flash || t.lastSaved != s.lastSaved
  }

  /** One operation of the store keeps it in step, and brings it back in step if it takes effect. */
  ghost predicate Follows(s: Store, t: Store) {
    InStep(s) || TookEffect(s, t) ==> InStep(t)
  }

  lemma FollowsTwice(s: Store, t: Store, u: Store)
    ensures Follows(s, t) && Follows(t, u) ==> Follows(s, u)
  {
    hide Restore, Survivor;
  }

  lemma {:induction false} SavedFollows(m: Motion, s: Store, now: int, ok: bool)
    requires Bounded(m)
    ensures Follows(s, SaveNow(m, s, now, ok)) && Follows(s, Tick(m, s, now, ok))
  {
    hide Restore, Image, Capture, Bounded, TravelSurvives;
    WrittenSurvives(m);
  }

  lemma ResetFollows(m: Motion, s: Store, now: int, erased: bool, ok: bool)
    requires -1 <= m.profiles.pending < NUM_PROFILES
    ensures Follows(s, ResetToDefaults(m, s, now, erased, ok).1)
  {
    hide Image, Capture, Bounded, ParseAndMigrate, WithDefaults, Resettled;
    DefaultsBounded(m);
    var n := Resettled(WithDefaults(m));
    WrittenSurvives(n);
    DefaultsAreValid(m);
    DefaultsAreValid(DEFAULTS);
    DefaultsSurvive();
  }

  lemma DefaultsSurvive()
    ensures Survivor(Capture(DEFAULTS)) == Capture(DEFAULTS)
  {
  }

  lemma {:induction false} ResetKept(y: System, r: Requests, io: Io)
    requires Bounded(y.w.m)
    ensures Bounded(ResetCommand(y, r, io).w.m) && Follows(y.s, ResetCommand(y, r, io).s)
  {
    hide Restore, Image, Capture, WithDefaults, Bounded, ProfileSet, Recomputed, Survivor;
    if r.reset && GateResetSettings(GateView(y.w.m)) == Nothing {
      PendingInRange(y.w.m);
      ResetFollows(y.w.m, y.s, io.now, io.erased, io.resetOk);
      DefaultsBounded(y.w.m);
      var (m, s) := ResetToDefaults(y.w.m, y.s, io.now, io.erased, io.resetOk);
      ResetKeepsReady(y.w, y.s, io);
      ProfileSetBounded(y.w.(m := m), m.profiles.active);
    }
  }

  lemma PendingInRange(m: Motion)
    ensures Bounded(m) ==> -1 <= m.profiles.pending < NUM_PROFILES
  {
  }

  lemma ProfileSetBounded(w: World, idx: int)
    ensures Bounded(w.m) ==> Bounded(ProfileSet(w, idx).m)
  {
    hide GeometryBounded, HealthBounded;
  }

  /** Any boot, whatever is on flash and whether or not it can be read, brings up settings within
      their bounds; one that can write also brings the flash in step. */
  lemma {:induction false} BootKept(y: System, readable: bool, now: int, ok: bool)
    ensures var z := Next(y, Reboot(readable, now, ok));
            Kept(z) && if ok then InStep(z.s) else z.s.flash == y.s.flash
  {
    hide Restore, Image, Capture, Bounded, Load, BootCounted, Survivor;
    BootReady(y.s.flash, readable, now, ok);
    BootBounded(y.s.flash, readable, now, ok);
    WrittenSurvives(Load(DEFAULTS, y.s.flash, readable, now, ok).0);
    BootSaves(DEFAULTS, y.s.flash, readable, now, ok);
  }

  lemma BootSaves(m: Motion, flash: Option<seq<byte>>, readable: bool, now: int, ok: bool)
    ensures var (n, s) := Load(m, flash, readable, now, ok);
            s.lastSaved == Capture(n) && s.flash == if ok then Some(Image(Capture(n))) else flash
  {
    hide Capture, Image;
  }

  lemma {:induction false} BootBounded(flash: Option<seq<byte>>, readable: bool, now: int, ok: bool)
    ensures Bounded(Load(DEFAULTS, flash, readable, now, ok).0)
  {
    hide Image, Recomputed, ParseAndMigrate, ValidateV4, Settled;
    var read := if readable then flash else None;
    var a := Loaded(DEFAULTS, read);
    RecomputeKeeps(a.geo);
    assert BootCounted(a).geo == a.geo;
    BootSavable(DEFAULTS, read);
    BootReady(flash, readable, now, ok);
    SavableBounded(Resettled(BootCounted(a)));
  }

  lemma SavableBounded(m: Motion)
    ensures Savable(m) && m.profiles.Valid() ==> Bounded(m)
  {
    hide Settled;
  }

  /** Nothing is ruled out but positions beyond 32 bits. */
  predicate Ordinary(ev: Event) {
    ev.Pump? && ev.r.calibrate ==> Measurable(ev.f.cal)
  }

  /** In this event the flash is brought in step with the store: by a boot that could write, or
      by a tick, a save or a reset whose write or erase took effect. */
  predicate Stores(y: System, ev: Event) {
    if ev.Reboot? then ev.ok else TookEffect(y.s, Next(y, ev).s)
  }

  lemma {:induction false} NextKept(y: System, ev: Event)
    requires Kept(y) && Ordinary(ev)
    ensures Kept(Next(y, ev))
    ensures Stores(y, ev) || (!ev.Reboot? && InStep(y.s)) ==> InStep(Next(y, ev).s)
    ensures !Stores(y, ev) ==> Next(y, ev).s.flash == y.s.flash
  {
    hide Restore, Capture, Bounded, Handled, Commanded, ResetCommand, SaveNow, Load, Edited, Measurable, Survivor, Tick;
    match ev
    case Pump(at, r, f, io) =>
      HandledBounded(y.w, at);
      CommandedBounded(Handled(y.w, at), r, f);
      var a := y.(w := Commanded(Handled(y.w, at), r, f));
      ResetKept(a, r, io);
      var b := ResetCommand(a, r, io);
      SavedFollows(b.w.m, b.s, io.now, io.tickOk);
      FollowsTwice(y.s, b.s, Tick(b.w.m, b.s, io.now, io.tickOk));
    case Write(e, now, ok) =>
      EditKeepsProfiles(y.w.m, e);
      EditedBounded(y.w.m, e);
      SavedFollows(Edited(y.w.m, e), y.s, now, ok);
    case Reboot(readable, now, ok) =>
      BootKept(y, readable, now, ok);
  }

  /** After `n` events the flash is in step with the store: the last boot could write, or
      something has been stored since. */
  predicate Synced(y: System, evs: seq<Event>, n: nat)
    requires n <= |evs|
  {
    n == 0 || Stores(After(y, evs, n - 1), evs[n - 1]) || (!evs[n - 1].Reboot? && Synced(y, evs, n - 1))
  }

  /** When that was last so. */
  function LastSynced(y: System, evs: seq<Event>, n: nat): (k: nat)
    requires n <= |evs|
    ensures k <= n
  {
    hide Next, Ready, Stores;
    if n == 0 || Synced(y, evs, n) then n else LastSynced(y, evs, n - 1)
  }

  lemma {:induction false} AlwaysKept(y: System, evs: seq<Event>, n: nat)
    requires n <= |evs| && Kept(y) && forall i :: 0 <= i < n ==> Ordinary(evs[i])
    ensures Kept(After(y, evs, n))
    ensures var k := LastSynced(y, evs, n);
            InStep(y.s) ==>
              && (Synced(y, evs, n) ==> InStep(After(y, evs, n).s))
              && InStep(After(y, evs, k).s) && After(y, evs, n).s.flash == After(y, evs, k).s.flash
  {
    hide Kept, InStep, Next, Ordinary, Ready, Stores;
    if n > 0 {
      AlwaysKept(y, evs, n - 1);
      NextKept(After(y, evs, n - 1), evs[n - 1]);
    }
  }

  /** Cut the power after any run, whatever boots, ticks, saves and resets failed along the way:
      the next boot brings back, one boot further on, what the store last had written, which is
      what it last saved before a boot failed to write and nothing was stored since; if the
      endpoints then saved do not survive, it brings up the defaults. */
  lemma {:induction false} PowerCutRestores(y: System, evs: seq<Event>, n: nat, now: int, ok: bool)
    requires n <= |evs| && Kept(y) && InStep(y.s) && forall i :: 0 <= i < n ==> Ordinary(evs[i])
    ensures var k := LastSynced(y, evs, n);
            Capture(Load(DEFAULTS, After(y, evs, n).s.flash, true, now, ok).0)
            == OneBootOn(Survivor(After(y, evs, k).s.lastSaved))
  {
    hide Load, Capture, Ordinary, Next, After, Survivor, LastSynced;
    AlwaysKept(y, evs, n);
    BootRestores(After(y, evs, n).s.flash, now, ok);
  }

  /** As long as no boot fails to write, the flash is never out of step. */
  lemma {:induction false} WritingBootsSync(y: System, evs: seq<Event>, n: nat)
    requires n <= |evs|
    ensures (forall i :: 0 <= i < n && evs[i].Reboot? ==> evs[i].ok) ==> LastSynced(y, evs, n) == n
    ensures (forall i :: 0 <= i < n && evs[i].Reboot? ==> evs[i].ok) ==> Synced(y, evs, n)
  {
    hide Next, Ready, TookEffect;
    if n > 0 {
      WritingBootsSync(y, evs, n - 1);
    }
  }

  // ---------------------------------------------------------------------------
  //  What is changed gets saved
  // ---------------------------------------------------------------------------

  /** A reset is carried out in this pass. */
  predicate CarriesOutReset(y: System, ev: Event) {
    ev.Pump? && ev.r.reset && Commanded(Handled(y.w, ev.at), ev.r, ev.f).m.run == Idle
  }

  /** The tick of this pass is due. */
  predicate TickDue(y: System, ev: Event) {
    ev.Pump? && !CarriesOutReset(y, ev) && Since(ev.io.now, y.s.lastCheckMs) >= SAVE_INTERVAL_MS
  }

  lemma {:induction false} SavedCatchesUp(m: Motion, s: Store, now: int)
    requires Bounded(m) && InStep(s)
    ensures Restore(SaveNow(m, s, now, true).flash) == Survivor(Capture(m))
    ensures Since(now, s.lastCheckMs) >= SAVE_INTERVAL_MS ==>
              Restore(Tick(m, s, now, true).flash) == Survivor(Capture(m))
  {
    hide Restore, Image, Capture, Bounded, TravelSurvives;
    WrittenSurvives(m);
  }

  lemma NextSaves(y: System, ev: Event)
    requires Kept(y) && InStep(y.s) && Ordinary(ev)
    ensures var z := Next(y, ev);
            && (ev.Write? && !ev.e.OtaDone? ==> z.s == y.s)
            && (TickDue(y, ev) ==> z.s.lastCheckMs == ev.io.now)
            && (TickDue(y, ev) && ev.io.tickOk ==> Restore(z.s.flash) == Survivor(Capture(z.w.m)))
            && (ev.Write? && ev.e.OtaDone? && ev.ok ==> Restore(z.s.flash) == Survivor(Capture(z.w.m)))
  {
    hide Restore, Capture, Bounded, Handled, Commanded, SaveNow, Load, Edited, Measurable, Survivor, JamDetectionSetUp,
         ResetToDefaults;
    match ev
    case Pump(at, r, f, io) =>
      HandledBounded(y.w, at);
      CommandedBounded(Handled(y.w, at), r, f);
      SavedCatchesUp(Commanded(Handled(y.w, at), r, f).m, y.s, io.now);
      SaveMarksTime(Commanded(Handled(y.w, at), r, f).m, y.s, io.now, io.tickOk);
    case Write(e, now, ok) =>
      EditKeepsProfiles(y.w.m, e);
      EditedBounded(y.w.m, e);
      SavedCatchesUp(Edited(y.w.m, e), y.s, now);
    case Reboot(_, _, _) =>
  }

  lemma SaveMarksTime(m: Motion, s: Store, now: int, ok: bool)
    ensures SaveNow(m, s, now, ok).lastCheckMs == now
  {
    hide Capture, Image;
  }

  /** Over any run, while flash and store are in step: a pump iteration whose tick is due and can
      write leaves a flash that restores the very state the iteration ends in, and so does a
      finished update; a tick that is due but fails is due again one interval later. */
  lemma {:induction false} LiveStateSaved(y: System, evs: seq<Event>, n: nat)
    requires n < |evs| && Kept(y) && InStep(y.s) && forall i :: 0 <= i <= n ==> Ordinary(evs[i])
    ensures var u, ev, z := After(y, evs, n), evs[n], After(y, evs, n + 1);
            Synced(y, evs, n) ==>
              && (ev.Write? && !ev.e.OtaDone? ==> z.s == u.s)
              && (TickDue(u, ev) ==> z.s.lastCheckMs == ev.io.now)
              && (TickDue(u, ev) && ev.io.tickOk ==> Restore(z.s.flash) == Survivor(Capture(z.w.m)))
              && (ev.Write? && ev.e.OtaDone? && ev.ok ==> Restore(z.s.flash) == Survivor(Capture(z.w.m)))
  {
    hide Kept, InStep, Next, Ordinary, Stores, Restore, Survivor, Capture, TickDue, LastSynced, Synced;
    AlwaysKept(y, evs, n);
    if Synced(y, evs, n) {
      NextSaves(After(y, evs, n), evs[n]);
    }
  }

  /** A reset brings every setting back to the compiled-in one, live and, unless both the erase and
      the overwriting write fail, for every boot to come. */
  lemma {:induction false} ResetSticks(y: System, ev: Event)
    requires CarriesOutReset(y, ev)
    ensures var z := Next(y, ev);
            && Capture(z.w.m) == Capture(DEFAULTS) && z.w.m.geo.stale && !z.w.m.geo.calibrated
            && (ev.io.erased || ev.io.resetOk ==> Restore(z.s.flash) == Capture(DEFAULTS))
            && (!ev.io.erased && !ev.io.resetOk ==> z.s.flash == y.s.flash && z.s.lastSaved == y.s.lastSaved)
  {
    hide Handled, Commanded, Restore, Capture, Image, WithDefaults, Recomputed, JamDetectionSetUp;
    var w := Commanded(Handled(y.w, ev.at), ev.r, ev.f);
    ResetToSame(w, y.s, ev.io);
  }

  lemma ResetToSame(w: World, s: Store, io: Io)
    ensures var (m, t) := ResetToDefaults(w.m, s, io.now, io.erased, io.resetOk);
            && m.profiles.Valid() && Capture(m) == Capture(DEFAULTS) && m.geo.stale && !m.geo.calibrated
            && t.lastCheckMs == io.now
            && (io.erased || io.resetOk ==> Restore(t.flash) == Capture(DEFAULTS))
            && (!io.erased && !io.resetOk ==> t.flash == s.flash && t.lastSaved == s.lastSaved)
            && forall x: World :: x.m == m ==>
                 Capture(ProfileSet(x, m.profiles.active).m) == Capture(m)
                 && ProfileSet(x, m.profiles.active).m.geo == m.geo
  {
    hide Restore, Image, ParseAndMigrate;
    DefaultsAreValid(w.m);
    DefaultsAreValid(DEFAULTS);
    ResetSettled(w.m);
    WrittenRestored(Resettled(WithDefaults(w.m)));
    NothingRestored();
  }

  lemma NothingRestored()
    ensures Restore(None) == Capture(DEFAULTS)
  {
    DefaultsAreValid(DEFAULTS);
  }

  /** While Auto SG measures, a save stores the profile it measures, not the operator's: a power
      cut then brings the operator's profile back exactly if it is the one being measured, or,
      where the travel does not survive, the compiled-in one. */
  lemma {:induction false} AutoSgPowerCut(y: System, now: int, boot: int, ok: bool)
    requires Inv(y.w) && Kept(y) && InStep(y.s) && y.w.m.auto.active
    ensures var s := SaveNow(y.w.m, y.s, now, true);
            var back := Load(DEFAULTS, s.flash, true, boot, ok).0.profiles.active;
            && back == (if TravelSurvives(Capture(y.w.m)) then y.w.sg.profile else DEFAULTS.profiles.active)
            && (TravelSurvives(Capture(y.w.m)) ==>
                  (back == y.w.saved.profile <==> y.w.sg.profile == y.w.saved.profile))
  {
    hide Image, Restore, Load, Bounded, Capture, TravelSurvives;
    SavedFollows(y.w.m, y.s, now, true);
    var s := SaveNow(y.w.m, y.s, now, true);
    BootRestores(s.flash, boot, ok);
    ActiveSaved(y.w.m);
    ActiveSaved(DEFAULTS);
    ActiveSaved(Load(DEFAULTS, s.flash, true, boot, ok).0);
  }

  lemma ActiveSaved(m: Motion)
    ensures Capture(m).v3.v2.v1.activeProfile == m.profiles.active
  {
  }
}
