/** Power-cut safety of the settings store: at every moment a reboot would restore exactly
    what was last saved. */
module PowerCut {
  import opened Config
  import opened Endpoints
  import opened MotionState
  import opened MotorFsm
  import opened Numbers
  import opened SettingsBlob
  import opened SettingsStore

  /** What a boot would restore from `flash`, before it counts itself. */
  function Restore(flash: Option<seq<byte>>): V4 {
    Capture(Resettled(Loaded(DEFAULTS, flash)))
  }

  ghost predicate Persisted(s: Store) {
    Restore(s.flash) == s.lastSaved
  }

  /** The offsets of a calibrated machine are the ones its endpoints were computed with. */
  predicate Settled(g: Geometry) {
    g.calibrated ==> Recomputed(g).upOffset == g.upOffset && Recomputed(g).downOffset == g.downOffset
  }

  /** What a saved state must satisfy to come back: the current validator accepts it, and its
      offsets are settled. Widths are those of the fields themselves. */
  ghost predicate Savable(m: Motion) {
    FitsV4(Capture(m)) && ValidateV4(Capture(m)) && Settled(m.geo)
  }

  lemma SameOffsets(g: Geometry, h: Geometry)
    requires g.rawUp == h.rawUp && g.rawDown == h.rawDown && g.calibrated == h.calibrated
    requires g.upOffset == h.upOffset && g.downOffset == h.downOffset
    ensures Recomputed(g).upOffset == Recomputed(h).upOffset && Recomputed(g).downOffset == Recomputed(h).downOffset
  {
  }

  /** A valid blob written by this firmware is applied as it was captured. */
  lemma AppliedAsCaptured(m: Motion, n: Motion)
    ensures Capture(Resettled(Applied(Capture(m), n))) == Capture(m) <==> Settled(m.geo)
  {
    hide Recomputed;
    var a := Applied(Capture(m), n);
    assert LiveTrips(Capture(m)) == m.profiles.trips;
    SameOffsets(a.geo, m.geo);
    RecomputeKeeps(a.geo);
    if !m.geo.calibrated {
      Uncalibrated(a.geo);
    }
  }

  /** Whether a saved state comes back: what Savable asks of a live one, without the widths. */
  predicate ComesBack(p: V4) {
    var b := p.v3.v2.v1;
    ValidateV4(p)
    && Settled(Geometry(b.rawUp, b.rawDown, 0, 0, b.calibrated != 0, false, b.upOffset, b.downOffset))
  }

  lemma ComesBackOf(m: Motion)
    ensures ComesBack(Capture(m)) <==> ValidateV4(Capture(m)) && Settled(m.geo)
  {
    hide Recomputed, ValidateV4;
    var b := Capture(m).v3.v2.v1;
    var g := Geometry(b.rawUp, b.rawDown, 0, 0, b.calibrated != 0, false, b.upOffset, b.downOffset);
    if m.geo.calibrated {
      SameOffsets(g, m.geo);
    }
  }

  lemma Uncalibrated(g: Geometry)
    requires !g.calibrated
    ensures Recomputed(g) == g.(up := 0, down := 0)
  {
  }

  lemma DefaultsAreValid(m: Motion)
    ensures ValidateV4(Capture(Resettled(WithDefaults(m)))) && FitsV4(Capture(Resettled(WithDefaults(m))))
    ensures Capture(Resettled(WithDefaults(m))) == Capture(DEFAULTS)
  {
  }

  /** A written state is what a reboot restores if and only if it is valid and settled. */
  lemma {:induction false} WrittenRestored(m: Motion)
    requires FitsV4(Capture(m))
    ensures Restore(Some(Image(Capture(m)))) == Capture(m) <==> ValidateV4(Capture(m)) && Settled(m.geo)
  {
    hide Image, ParseAndMigrate, Applied, WithDefaults, FitsV4, ValidateV4, Settled, Resettled;
    VersionFour(m);
    WrittenReadBack(Capture(m));
    AppliedAsCaptured(m, DEFAULTS);
    DefaultsAreValid(DEFAULTS);
  }

  lemma VersionFour(m: Motion)
    ensures Capture(m).v3.v2.v1.version == 4
  {
  }

  // ---------------------------------------------------------------------------
  //  Every operation, and every run of them
  // ---------------------------------------------------------------------------

  /** A written state that the validator does not accept brings up the defaults. */
  lemma {:induction false} RejectedRestored(m: Motion)
    requires FitsV4(Capture(m)) && !ValidateV4(Capture(m))
    ensures Restore(Some(Image(Capture(m)))) == Capture(DEFAULTS)
  {
    hide Image, ParseAndMigrate, Applied, WithDefaults, FitsV4, ValidateV4, Settled, Resettled;
    VersionFour(m);
    WrittenReadBack(Capture(m));
    DefaultsAreValid(DEFAULTS);
  }

  /** In step: a reboot would restore what was last saved, if that is a state that comes back. */
  ghost predicate Mirrors(s: Store) {
    Persisted(s) <==> ComesBack(s.lastSaved)
  }

  lemma {:induction false} SaveMirrors(m: Motion, s: Store, now: int, ok: bool)
    requires Mirrors(s) && FitsV4(Capture(m))
    ensures Mirrors(SaveNow(m, s, now, ok))
    ensures Persisted(s) && ValidateV4(Capture(m)) && Settled(m.geo) ==> Persisted(SaveNow(m, s, now, ok))
  {
    hide Capture, Image, Restore, FitsV4, ValidateV4, Settled, ComesBack;
    WrittenRestored(m);
    ComesBackOf(m);
  }

  lemma ResetMirrors(m: Motion, s: Store, now: int, erased: bool, ok: bool)
    requires Mirrors(s)
    ensures Mirrors(ResetToDefaults(m, s, now, erased, ok).1)
    ensures Persisted(s) ==> Persisted(ResetToDefaults(m, s, now, erased, ok).1)
  {
    hide Image, ParseAndMigrate, WithDefaults, FitsV4, ValidateV4, ComesBack, Resettled, Settled, Capture;
    DefaultsAreValid(m);
    DefaultsAreValid(DEFAULTS);
    ResetSettled(m);
    WrittenRestored(Resettled(WithDefaults(m)));
    ComesBackOf(Resettled(WithDefaults(m)));
  }

  lemma ResetSettled(m: Motion)
    ensures Settled(Resettled(WithDefaults(m)).geo)
  {
  }

  /** One operation of the store, on the live state it meets. */
  datatype Op =
    | TickOp(now: int, ok: bool)
    | SaveOp(now: int, ok: bool)
    | ResetOp(now: int, erased: bool, ok: bool)

  function Perform(m: Motion, s: Store, op: Op): Store {
    match op
    case TickOp(now, ok) => Tick(m, s, now, ok)
    case SaveOp(now, ok) => SaveNow(m, s, now, ok)
    case ResetOp(now, erased, ok) => ResetToDefaults(m, s, now, erased, ok).1
  }

  /** The store after the first `n` operations, each of which meets a live state of its own. */
  function Performed(s: Store, live: seq<Motion>, ops: seq<Op>, n: nat): Store
    requires n <= |ops| == |live|
  {
    if n == 0 then s else Perform(live[n - 1], Performed(s, live, ops, n - 1), ops[n - 1])
  }

  /** Whatever is changed live in between, and whichever opens, erases and writes fail, a
      reboot would restore exactly what was last saved if and only if that is valid with its
      offsets settled; so always, if every live state on the way is. */
  lemma {:induction false} AlwaysPersisted(s: Store, live: seq<Motion>, ops: seq<Op>, n: nat)
    requires n <= |ops| == |live| && Persisted(s) && forall i :: 0 <= i < n ==> FitsV4(Capture(live[i]))
    ensures var t := Performed(s, live, ops, n);
            && (Persisted(t) <==> ComesBack(t.lastSaved))
            && ((forall i :: 0 <= i < n ==> ValidateV4(Capture(live[i])) && Settled(live[i].geo)) ==> Persisted(t))
  {
    hide Capture, Restore, ResetToDefaults, SaveNow, FitsV4, ValidateV4, Settled, ComesBack;
    if n == 0 {
      RestoredComesBack(s.flash);
    } else {
      AlwaysPersisted(s, live, ops, n - 1);
      var t, m := Performed(s, live, ops, n - 1), live[n - 1];
      match ops[n - 1]
      case TickOp(now, ok) => SaveMirrors(m, t, now, ok);
      case SaveOp(now, ok) => SaveMirrors(m, t, now, ok);
      case ResetOp(now, erased, ok) => ResetMirrors(m, t, now, erased, ok);
    }
  }

  // ---------------------------------------------------------------------------
  //  Booting
  // ---------------------------------------------------------------------------

  lemma ResettledInRange(g: Geometry)
    requires g.calibrated ==> g.rawDown - g.rawUp >= ENDPOINT_GUARD
    requires OFFSETS.Allows(g.upOffset) && OFFSETS.Allows(g.downOffset)
    ensures OFFSETS.Allows(Recomputed(g).upOffset) && OFFSETS.Allows(Recomputed(g).downOffset)
    ensures Settled(Recomputed(g))
  {
  }

  lemma LoadedSavable(m: Motion, blob: Option<seq<byte>>)
    ensures Savable(Resettled(Loaded(m, blob)))
  {
    hide Recomputed, ParseAndMigrate, Settled;
    var a := Loaded(m, blob);
    if blob.Some? {
      MigrationSound(blob.value);
    }
    ResettledInRange(a.geo);
    RecomputeKeeps(a.geo);
  }

  lemma RestoredComesBack(flash: Option<seq<byte>>)
    ensures ComesBack(Restore(flash))
  {
    hide Recomputed, ParseAndMigrate, Settled, Loaded, Capture, ValidateV4, FitsV4, Resettled, ComesBack;
    LoadedSavable(DEFAULTS, flash);
    ComesBackOf(Resettled(Loaded(DEFAULTS, flash)));
  }

  /** Whatever is on flash, the state a boot comes up with can be saved again. */
  lemma {:induction false} BootSavable(m: Motion, blob: Option<seq<byte>>)
    ensures Savable(Resettled(BootCounted(Loaded(m, blob))))
  {
    hide Recomputed, ParseAndMigrate, Settled;
    var a := Loaded(m, blob);
    if blob.Some? {
      MigrationSound(blob.value);
    }
    ResettledInRange(BootCounted(a).geo);
    RecomputeKeeps(BootCounted(a).geo);
  }

  function OneBootOn(p: V4): V4 {
    p.(v3 := p.v3.(v2 := p.v3.v2.(health :=
        p.v3.v2.health.(resetCount := (p.v3.v2.health.resetCount + 1) % U16))))
  }

  /** A boot that succeeds in writing leaves the store in step with the flash; one that fails does
      not, as it loses the boot count, which no tick writes later. Only a boot that could not
      read the flash either may find there, by chance, the very state it came up with. */
  lemma {:induction false} BootPersistsIffWritten(m: Motion, flash: Option<seq<byte>>,
      readable: bool, now: int, ok: bool)
    ensures ok ==> Persisted(Load(m, flash, readable, now, ok).1)
    ensures readable ==> (Persisted(Load(m, flash, readable, now, ok).1) <==> ok)
    ensures !readable && !ok ==>
              (Persisted(Load(m, flash, readable, now, ok).1) <==> Restore(flash) == OneBootOn(Capture(DEFAULTS)))
  {
    hide Recomputed, ParseAndMigrate, Settled, Image, ValidateV4, FitsV4;
    var read := if readable then flash else None;
    var n := Resettled(BootCounted(Loaded(m, read)));
    if ok {
      BootSavable(m, read);
      WrittenRestored(n);
    } else if readable {
      BootCountIgnored(m, flash);
      ResetCountFits(m, flash);
      RecomputeKeeps(Loaded(m, flash).geo);
    } else {
      DefaultsOneBootOn(m);
    }
  }

  lemma DefaultsOneBootOn(m: Motion)
    ensures Capture(Resettled(BootCounted(Loaded(m, None)))) == OneBootOn(Capture(DEFAULTS))
  {
  }

  lemma ResetCountFits(m: Motion, blob: Option<seq<byte>>)
    ensures 0 <= Loaded(m, blob).health.resetCount < U16
    ensures Loaded(m, blob).health == Loaded(DEFAULTS, blob).health
  {
    hide ParseAndMigrate;
    if blob.Some? {
      MigrationSound(blob.value);
    }
  }

  lemma BootCountIgnored(m: Motion, flash: Option<seq<byte>>)
    ensures Capture(Resettled(BootCounted(Loaded(m, flash)))).v3.v2.health.resetCount
         == (Loaded(m, flash).health.resetCount + 1) % U16
    ensures Restore(flash).v3.v2.health == Loaded(DEFAULTS, flash).health
  {
    hide ParseAndMigrate, Recomputed;
  }

  /** No tick retries a boot's failed write while the live state stays as booted. */
  lemma FailedBootWriteNotRetried(m: Motion, flash: Option<seq<byte>>, readable: bool, now: int, later: int, ok: bool)
    ensures var (n, s) := Load(m, flash, readable, now, false);
            Tick(n, s, later, ok).flash == flash && SaveNow(n, s, later, ok).flash == flash
  {
    hide Capture, Image;
  }

  /** A boot brings up what the flash restores, one boot further on, whether or not it can write. */
  lemma BootRestores(flash: Option<seq<byte>>, now: int, ok: bool)
    ensures Capture(Load(DEFAULTS, flash, true, now, ok).0) == OneBootOn(Restore(flash))
  {
    hide Recomputed, ParseAndMigrate;
    var a := Loaded(DEFAULTS, flash);
    assert BootCounted(a).geo == a.geo;
  }

  /** A reboot brings back exactly what was last saved, one boot further on. */
  lemma RebootRestores(s: Store, now: int, ok: bool)
    requires Persisted(s)
    ensures Capture(Load(DEFAULTS, s.flash, true, now, ok).0) == OneBootOn(s.lastSaved)
  {
    hide Load, Capture, Restore;
    BootRestores(s.flash, now, ok);
  }

  /** The press comes up idle and refuses to run: uncalibrated, or its position unreferenced. */
  lemma BootRefusesStart(flash: Option<seq<byte>>, readable: bool, now: int, ok: bool, setUp: bool)
    ensures var n := Load(DEFAULTS, flash, readable, now, ok).0;
            && n.run == Idle && (!n.geo.calibrated || n.geo.stale)
            && GateStart(GateInput(n.run, n.geo.calibrated, n.geo.stale, n.batch.target, setUp)) != Nothing
  {
    hide ParseAndMigrate, Capture, Image;
  }

  /** Without a blob to trust, for want of one or of a flash that reads, or because it is rejected, the
      machine comes up as it was made: no calibration, no trip, no count but this boot's. */
  lemma NothingTrusted(flash: Option<seq<byte>>, readable: bool, now: int, ok: bool)
    requires readable && flash.Some? ==> !ParseAndMigrate(flash.value).Ok?
    ensures Load(DEFAULTS, flash, readable, now, ok).0
         == Motion(Idle, 0, 0, 0, Geometry(0, 0, 0, 0, false, true, 0, 0), 0, 0, 0, Batch(false, 0, 0),
                   Profiles(1, -1, Triple(0, 0, 0), 0), AutoView(false, 0, 0), 3500, 5500,
                   Lifetime(0, 0, 0, 0, 0, 1), 0)
  {
    hide ParseAndMigrate, Capture, Image;
  }

  /** No trip of a firmware that did not record speeds survives: jam detection has to be set
      up again. */
  lemma OldTripsDropped(m: Motion, data: seq<byte>, now: int, ok: bool)
    requires ParseAndMigrate(data).Ok? && ParseAndMigrate(data).fromVersion < 4
    ensures var n := Load(m, Some(data), true, now, ok).0;
            && n.profiles.trips == Triple(0, 0, 0) && !JamDetectionSetUp(n)
            && GateStart(GateInput(n.run, n.geo.calibrated, n.geo.stale, n.batch.target, JamDetectionSetUp(n)))
               != Nothing
  {
    hide ParseAndMigrate, Capture, Image, Recomputed;
    MigrationSound(data);
  }

  // ---------------------------------------------------------------------------
  //  What is changed gets saved
  // ---------------------------------------------------------------------------

  /** A save that can write, and a tick that is due and can, leave a flash that restores the live
      state; a tick that is not due touches nothing, one that fails waits for the next interval. */
  lemma {:induction false} ChangesSaved(m: Motion, s: Store, now: int, ok: bool)
    requires Persisted(s) && Savable(m)
    ensures ok ==> Restore(SaveNow(m, s, now, ok).flash) == Capture(m)
    ensures ok && Since(now, s.lastCheckMs) >= SAVE_INTERVAL_MS ==> Restore(Tick(m, s, now, ok).flash) == Capture(m)
    ensures Since(now, s.lastCheckMs) < SAVE_INTERVAL_MS ==> Tick(m, s, now, ok) == s
    ensures Since(now, s.lastCheckMs) >= SAVE_INTERVAL_MS ==> Tick(m, s, now, ok).lastCheckMs == now
    ensures !ok ==> SaveNow(m, s, now, ok) == s.(lastCheckMs := now)
  {
    hide Capture, Image, Restore, FitsV4, ValidateV4, Settled;
    WrittenRestored(m);
  }

  /** The settings and counters that outlast a power cut, the boot count aside. */
  ghost predicate SameSettings(m: Motion, n: Motion) {
    && n.runCurrentMa == m.runCurrentMa && n.workZone == m.workZone && n.counter == m.counter
    && n.profiles.active == m.profiles.active && n.profiles.trips == m.profiles.trips
    && n.profiles.calCurrentMa == m.profiles.calCurrentMa && n.lifetimeCycles == m.lifetimeCycles
    && n.geo.rawUp == m.geo.rawUp && n.geo.rawDown == m.geo.rawDown && n.geo.calibrated == m.geo.calibrated
    && n.geo.upOffset == m.geo.upOffset && n.geo.downOffset == m.geo.downOffset
    && n.health == m.health.(resetCount := n.health.resetCount)
  }

  lemma CaptureTellsAll(m: Motion, n: Motion)
    ensures Capture(n) == OneBootOn(Capture(m)) ==>
              SameSettings(m, n) && n.health.resetCount == (m.health.resetCount + 1) % U16
    ensures Capture(m).v3.v2.v1.version == 4 && Capture(m).speeds == SPEED_HZ && Capture(m).reserved == 0
  {
  }

  /** Nothing that is meant to last gets lost: the machine that boots from what was written has
      every setting and every counter of the one that wrote it, one boot further on, but not its
      position. */
  lemma {:induction false} PowerCycleKeeps(m: Motion, now: int, ok: bool)
    requires Savable(m)
    ensures var n := Load(DEFAULTS, Some(Image(Capture(m))), true, now, ok).0;
            && SameSettings(m, n) && n.health.resetCount == (m.health.resetCount + 1) % U16
            && (n.geo.calibrated ==> n.geo.stale) && n.run == Idle
  {
    hide Capture, Image, Restore, FitsV4, ValidateV4, Settled, Load, SameSettings;
    WrittenRestored(m);
    BootRestores(Some(Image(Capture(m))), now, ok);
    CaptureTellsAll(m, Load(DEFAULTS, Some(Image(Capture(m))), true, now, ok).0);
    BootUnreferenced(Some(Image(Capture(m))), now, ok);
  }

  lemma BootUnreferenced(flash: Option<seq<byte>>, now: int, ok: bool)
    ensures var n := Load(DEFAULTS, flash, true, now, ok).0; n.run == Idle && (n.geo.calibrated ==> n.geo.stale)
  {
    hide ParseAndMigrate, Capture, Image;
  }

  /** A stored trip comes back exactly at the speed it was stored with: at any other it is dropped. */
  lemma TripsHoldAtTheirSpeed(data: seq<byte>, now: int, ok: bool, i: int)
    requires ParseAndMigrate(data).Ok? && 0 <= i < NUM_PROFILES
    ensures var p := ParseAndMigrate(data).settings;
            Load(DEFAULTS, Some(data), true, now, ok).0.profiles.trips.At(i)
            == if p.speeds.At(i) == SPEED_HZ.At(i) then p.v3.v2.v1.trips.At(i) else 0
  {
    hide ParseAndMigrate, Capture, Image, Recomputed;
  }

  // ---------------------------------------------------------------------------
  //  Which calibrations survive a reboot
  // ---------------------------------------------------------------------------

  /** What a successful calibration leaves behind. */
  function Calibrated(travel: int): Geometry {
    Recomputed(Geometry(0, travel, 0, 0, true, false, 0, -500))
  }

  /** A calibration that was saved survives a reboot if and only if its travel is more than
      twice the guard, though exactly twice the guard passes as plausible. */
  lemma {:induction false} CalibrationSurvives(m: Motion, travel: int)
    requires travel >= 2 * ENDPOINT_GUARD && IsI32(travel)
    requires FitsV4(Capture(m)) && ValidateV4(Capture(m.(geo := DEFAULTS.geo)))
    ensures var p := Capture(m.(geo := Calibrated(travel)));
            Restore(Some(Image(p))) == p <==> 2 * ENDPOINT_GUARD < travel <= CAL_SEARCH_STEPS
  {
    hide Image, Recomputed, Restore, Settled;
    var n := m.(geo := Calibrated(travel));
    ResettledInRange(Geometry(0, travel, 0, 0, true, false, 0, -500));
    RecomputeKeeps(Geometry(0, travel, 0, 0, true, false, 0, -500));
    WrittenRestored(n);
  }
}
