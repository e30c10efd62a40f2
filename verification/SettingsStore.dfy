/** Persisting the settings: what is captured, applied, written and erased, with failing
    flash operations (main/settings_store.cpp). */
module SettingsStore {
  import opened MotionState
  import opened MotorFsm
  import opened Numbers
  import opened SettingsBlob

  const SAVE_INTERVAL_MS := 5000

  datatype Option<T> = None | Some(value: T)

  /** The persistable part of the machine state. */
  function Capture(m: Motion): V4 {
    V4(V3(V2(V1(4, m.runCurrentMa, m.geo.rawUp, m.geo.rawDown, m.geo.upOffset, m.geo.downOffset, m.workZone,
                m.counter, m.profiles.trips, m.profiles.active, if m.geo.calibrated then 1 else 0),
             m.health),
          m.lifetimeCycles),
       SPEED_HZ, m.profiles.calCurrentMa, 0)
  }

  function LiveTrips(p: V4): Triple {
    var t, s := p.v3.v2.v1.trips, p.speeds;
    Triple(TripAtCompiledSpeed(t.slow, s.slow, SPEED_HZ.slow),
           TripAtCompiledSpeed(t.normal, s.normal, SPEED_HZ.normal),
           TripAtCompiledSpeed(t.fast, s.fast, SPEED_HZ.fast))
  }

  /** Endpoints come back without the position they are measured against: stale. */
  function AppliedGeometry(p: V1, g: Geometry): Geometry {
    Geometry(p.rawUp, p.rawDown, g.up, g.down, p.calibrated != 0, p.calibrated != 0 || g.stale,
             p.upOffset, p.downOffset)
  }

  function Applied(p: V4, m: Motion): Motion {
    var b := p.v3.v2.v1;
    m.(runCurrentMa := b.runCurrentMa, geo := AppliedGeometry(b, m.geo), workZone := b.workZone,
       counter := b.counter, health := p.v3.v2.health, lifetimeCycles := p.v3.lifetimeCycles,
       profiles := m.profiles.(active := b.activeProfile, trips := LiveTrips(p), calCurrentMa := p.sgCalCurrentMa))
  }

  /** applyCompiledDefaults: the persisted fields, and an unknown position. */
  function WithDefaults(m: Motion): Motion {
    var d := DEFAULTS;
    m.(runCurrentMa := d.runCurrentMa, workZone := d.workZone, counter := d.counter,
       geo := Geometry(d.geo.rawUp, d.geo.rawDown, 0, 0, false, true, d.geo.upOffset, d.geo.downOffset),
       profiles := m.profiles.(active := d.profiles.active, trips := d.profiles.trips,
                               calCurrentMa := d.profiles.calCurrentMa),
       health := d.health, lifetimeCycles := d.lifetimeCycles)
  }

  function Resettled(m: Motion): Motion {
    m.(geo := Recomputed(m.geo))
  }

  function BootCounted(m: Motion): Motion {
    m.(health := m.health.(resetCount := (m.health.resetCount + 1) % U16))
  }

  datatype Store = Store(flash: Option<seq<byte>>, lastSaved: V4, lastCheckMs: int)

  function Loaded(m: Motion, blob: Option<seq<byte>>): Motion {
    if blob.None? then WithDefaults(m)
    else
      var r := ParseAndMigrate(blob.value);
      if r.Ok? then Applied(r.settings, m) else WithDefaults(m)
  }

  /** A boot: `readable` says whether the flash could be read, `ok` whether it could be written. */
  function Load(m: Motion, flash: Option<seq<byte>>, readable: bool, now: int, ok: bool): (Motion, Store) {
    var n := Resettled(BootCounted(Loaded(m, if readable then flash else None)));
    (n, Store(if ok then Some(Image(Capture(n))) else flash, Capture(n), now))
  }

  function Written(s: Store, p: V4, ok: bool): Store {
    if ok then s.(flash := Some(Image(p)), lastSaved := p) else s
  }

  function SaveNow(m: Motion, s: Store, now: int, ok: bool): Store {
    var t := s.(lastCheckMs := now);
    if Capture(m) == s.lastSaved then t else Written(t, Capture(m), ok)
  }

  function Tick(m: Motion, s: Store, now: int, ok: bool): Store {
    if Since(now, s.lastCheckMs) < SAVE_INTERVAL_MS then s else SaveNow(m, s, now, ok)
  }

  /** `erased`: the stored blob could be erased. */
  function ResetToDefaults(m: Motion, s: Store, now: int, erased: bool, ok: bool): (Motion, Store) {
    var n := Resettled(WithDefaults(m));
    var t := s.(lastCheckMs := now);
    (n, if erased then t.(flash := None, lastSaved := Capture(n)) else Written(t, Capture(n), ok))
  }

  // ---------------------------------------------------------------------------
  //  The store
  // ---------------------------------------------------------------------------

  class SettingsStorage {
    const motion: SharedMotion
    var flash: Option<seq<byte>>
    var lastSaved: V4
    var lastCheckMs: int

    ghost function View(): Store
      reads this
    {
      Store(flash, lastSaved, lastCheckMs)
    }

    constructor (motion: SharedMotion, flash: Option<seq<byte>>)
      ensures this.motion == motion && this.flash == flash
    {
      this.motion, this.flash := motion, flash;
      lastSaved, lastCheckMs := Capture(DEFAULTS), 0;
    }

    method CaptureState() returns (p: V4)
      ensures p == Capture(motion.View())
    {
      p := V4(V3(V2(V1(4, motion.runCurrentMa, motion.geo.rawUp, motion.geo.rawDown, motion.geo.upOffset,
                       motion.geo.downOffset, motion.workZone, motion.counter, motion.profiles.trips,
                       motion.profiles.active, if motion.geo.calibrated then 1 else 0),
                    motion.health),
                 motion.lifetimeCycles),
              SPEED_HZ, motion.profiles.calCurrentMa, 0);
    }

    method Apply(p: V4)
      modifies motion
      ensures motion.View() == Applied(p, old(motion.View()))
    {
      var b := p.v3.v2.v1;
      motion.runCurrentMa := b.runCurrentMa;
      motion.geo := motion.geo.(rawUp := b.rawUp, rawDown := b.rawDown, upOffset := b.upOffset,
                                downOffset := b.downOffset);
      motion.workZone := b.workZone;
      motion.counter := b.counter;
      motion.profiles := motion.profiles.(trips := LiveTrips(p), calCurrentMa := p.sgCalCurrentMa,
                                          active := b.activeProfile);
      motion.geo := motion.geo.(calibrated := b.calibrated != 0);
      motion.lifetimeCycles := p.v3.lifetimeCycles;
      motion.health := p.v3.v2.health;
      if motion.geo.calibrated {
        motion.geo := motion.geo.(stale := true);
      }
    }

    method ApplyCompiledDefaults()
      modifies motion
      ensures motion.View() == WithDefaults(old(motion.View()))
    {
      var d := DEFAULTS;
      motion.runCurrentMa := d.runCurrentMa;
      motion.workZone := d.workZone;
      motion.counter := d.counter;
      motion.profiles := motion.profiles.(trips := d.profiles.trips, calCurrentMa := d.profiles.calCurrentMa,
                                          active := d.profiles.active);
      motion.lifetimeCycles := d.lifetimeCycles;
      motion.health := d.health;
      motion.geo := Geometry(d.geo.rawUp, d.geo.rawDown, 0, 0, false, true, d.geo.upOffset, d.geo.downOffset);
    }

    /** A failing write leaves the flash as it was. */
    method WriteBlob(p: V4, ok: bool) returns (written: bool)
      modifies `flash
      ensures written == ok && flash == if ok then Some(Image(p)) else old(flash)
    {
      if ok {
        flash := Some(Image(p));
      }
      return ok;
    }

    method EraseBlob(ok: bool) returns (erased: bool)
      modifies `flash
      ensures erased == ok && flash == if ok then None else old(flash)
    {
      if ok {
        flash := None;
      }
      return ok;
    }

    method LoadSettings(readable: bool, now: int, ok: bool)
      modifies this, motion
      ensures (motion.View(), View()) == Load(old(motion.View()), old(flash), readable, now, ok)
    {
      hide Applied, WithDefaults, Recomputed, ParseAndMigrate, Image, Capture;
      if !readable || flash.None? {
        ApplyCompiledDefaults();
      } else {
        var r := ParseAndMigrate(flash.value);
        if r.Ok? {
          Apply(r.settings);
        } else {
          ApplyCompiledDefaults();
        }
      }
      motion.health := motion.health.(resetCount := (motion.health.resetCount + 1) % U16);
      motion.RecomputeEffectiveEndpoints();
      lastSaved := CaptureState();
      lastCheckMs := now;
      var written := WriteBlob(lastSaved, ok);
    }

    method TickSettings(now: int, ok: bool)
      modifies this
      ensures View() == Tick(motion.View(), old(View()), now, ok)
    {
      hide Capture, Image;
      if Since(now, lastCheckMs) < SAVE_INTERVAL_MS {
        return;
      }
      lastCheckMs := now;
      var cur := CaptureState();
      if cur == lastSaved {
        return;
      }
      var written := WriteBlob(cur, ok);
      if written {
        lastSaved := cur;
      }
    }

    method SaveSettings(now: int, ok: bool)
      modifies this
      ensures View() == SaveNow(motion.View(), old(View()), now, ok)
    {
      hide Capture, Image;
      var cur := CaptureState();
      lastCheckMs := now;
      if cur == lastSaved {
        return;
      }
      var written := WriteBlob(cur, ok);
      if written {
        lastSaved := cur;
      }
    }

    method ResetSettings(now: int, erased: bool, ok: bool)
      modifies this, motion
      ensures (motion.View(), View()) == ResetToDefaults(old(motion.View()), old(View()), now, erased, ok)
    {
      hide Capture, Image, WithDefaults, Recomputed;
      ApplyCompiledDefaults();
      motion.RecomputeEffectiveEndpoints();
      var def := CaptureState();
      lastCheckMs := now;
      var gone := EraseBlob(erased);
      if gone {
        lastSaved := def;
      } else {
        var written := WriteBlob(def, ok);
        if written {
          lastSaved := def;
        }
      }
    }
  }
}
