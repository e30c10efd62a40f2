/** The shared machine state (main/motion/motion_state.h). */
module MotionState {
  import opened Config
  import opened Endpoints
  import opened MotorFsm
  import opened SettingsBlob

  const OFFSETS := Limits(OFFSET_MIN, OFFSET_MAX, ENDPOINT_GUARD)
  const SPEED_HZ := Triple(15000, 30000, 40000)

  /** Raw and effective endpoints and what is known about them. */
  datatype Geometry = Geometry(
    rawUp: int, rawDown: int, up: int, down: int, calibrated: bool, stale: bool, upOffset: int, downOffset: int)

  datatype Batch = Batch(active: bool, count: int, target: int)

  /** `pending` is -1 or a profile queued for the next stroke. */
  datatype Profiles = Profiles(active: int, pending: int, trips: Triple, calCurrentMa: int) {
    predicate Valid() {
      0 <= active < NUM_PROFILES && -1 <= pending < NUM_PROFILES
    }
  }

  datatype AutoView = AutoView(active: bool, profile: int, stroke: int)

  datatype Motion = Motion(
    run: MotorState, currentTarget: int, stopEntryMs: int, lastChangeMs: int, geo: Geometry, counter: int,
    high: nat, low: nat, batch: Batch, profiles: Profiles, auto: AutoView, runCurrentMa: int, workZone: int,
    health: Lifetime, lifetimeCycles: int)

  /** The compiled-in initialisers. */
  const DEFAULTS := Motion(
    Idle, 0, 0, 0, Geometry(0, 0, 0, 0, false, false, 0, 0), 0, 0, 0, Batch(false, 0, 0),
    Profiles(1, -1, Triple(0, 0, 0), 0), AutoView(false, 0, 0), 3500, 5500, Lifetime(0, 0, 0, 0, 0, 0), 0)

  predicate JamDetectionSetUp(m: Motion) {
    m.profiles.trips.slow != 0 && m.profiles.trips.normal != 0 && m.profiles.trips.fast != 0
  }

  /** recomputeEffectiveEndpoints (main/motion/motion.cpp). */
  function Recomputed(g: Geometry): Geometry {
    var e := Compute(g.calibrated, g.rawUp, g.rawDown, g.upOffset, g.downOffset, OFFSETS);
    if !g.calibrated then g.(up := 0, down := 0)
    else g.(upOffset := e.upOffset, downOffset := e.downOffset, up := e.up, down := e.down)
  }

  /** It changes nothing but the offsets and the effective endpoints. */
  lemma RecomputeKeeps(g: Geometry)
    ensures Recomputed(g) == g.(up := Recomputed(g).up, down := Recomputed(g).down,
                                upOffset := Recomputed(g).upOffset, downOffset := Recomputed(g).downOffset)
    ensures !g.calibrated ==> Recomputed(g) == g.(up := 0, down := 0)
  {
  }

  /** The effective endpoints of a calibrated machine are at least the guard apart. */
  predicate Apart(g: Geometry) {
    g.calibrated ==> g.up + ENDPOINT_GUARD <= g.down
  }

  lemma RecomputedApart(g: Geometry)
    ensures Apart(Recomputed(g))
  {
  }

  /** `g_motion`. */
  class SharedMotion {
    var run: MotorState
    var currentTarget: int
    var stopEntryMs: int
    var lastChangeMs: int
    var geo: Geometry
    var counter: int
    var high: nat
    var low: nat
    var batch: Batch
    var profiles: Profiles
    var auto: AutoView
    var runCurrentMa: int
    var workZone: int
    var health: Lifetime
    var lifetimeCycles: int

    ghost function View(): Motion
      reads this
    {
      Motion(run, currentTarget, stopEntryMs, lastChangeMs, geo, counter, high, low, batch, profiles, auto,
             runCurrentMa, workZone, health, lifetimeCycles)
    }

    constructor ()
      ensures View() == DEFAULTS
    {
      run, currentTarget, stopEntryMs, lastChangeMs := Idle, 0, 0, 0;
      geo, counter, high, low := Geometry(0, 0, 0, 0, false, false, 0, 0), 0, 0, 0;
      batch, profiles := Batch(false, 0, 0), Profiles(1, -1, Triple(0, 0, 0), 0);
      auto, runCurrentMa, workZone := AutoView(false, 0, 0), 3500, 5500;
      health, lifetimeCycles := Lifetime(0, 0, 0, 0, 0, 0), 0;
    }

    method RecomputeEffectiveEndpoints()
      modifies `geo
      ensures geo == Recomputed(old(geo))
    {
      if !geo.calibrated {
        geo := geo.(up := 0, down := 0);
        return;
      }
      var e := Compute(geo.calibrated, geo.rawUp, geo.rawDown, geo.upOffset, geo.downOffset, OFFSETS);
      geo := geo.(upOffset := e.upOffset, downOffset := e.downOffset, up := e.up, down := e.down);
    }

    /** applyMotorEventLocked (main/motion/motion.h). */
    method ApplyMotorEvent(e: MotorEvent) returns (valid: bool)
      modifies `run
      ensures valid == MotorTransition(old(run), e).valid && run == MotorTransition(old(run), e).next
    {
      var t := MotorTransition(run, e);
      if t.valid {
        run := t.next;
      }
      return t.valid;
    }
  }
}
