/** The queued commands and the pass that carries them out (main/motion/motion_cmd.cpp). */
module MotionCmd {
  import opened Config
  import opened MotionState
  import opened MotorFsm
  import opened Press
  import opened SettingsBlob
  import opened SettingsStore
  import opened Supervisor

  /** The machine and its settings store. */
  datatype System = System(w: World, s: Store)

  /** How the flash operations of one pass turn out. */
  datatype Io = Io(now: int, erased: bool, resetOk: bool, tickOk: bool)

  /** Resetting is refused unless fully idle; the default profile's speed is pushed down again. */
  function ResetCommand(y: System, r: Requests, io: Io): System {
    if r.reset && GateResetSettings(GateView(y.w.m)) == Nothing then
      var (m, s) := ResetToDefaults(y.w.m, y.s, io.now, io.erased, io.resetOk);
      System(ProfileSet(y.w.(m := m), m.profiles.active), s)
    else y
  }

  /** One pass: the gated commands, a settings reset, and the store's own tick. */
  function Processed(y: System, r: Requests, f: Field, io: Io): System {
    hide *;
    var a := ResetCommand(y.(w := Commanded(y.w, r, f)), r, io);
    a.(s := Tick(a.w.m, a.s, io.now, io.tickOk))
  }

  const NO_REQUESTS := Requests(false, false, false, 0, false, false, -1, -1, false)

  class MotionCommands {
    const press: MotionSupervisor
    const store: SettingsStorage
    var queued: Requests

    ghost predicate Valid()
      reads this, press, press.motion, press.stall, press.stroke, press.autoSg
      reads press.autoSg.measured, press.autoSg.floorOnly
    {
      press.Valid() && store.motion == press.motion
    }

    ghost function View(): System
      requires Valid()
      reads this, press, press.motion, press.stall, press.stroke, press.autoSg
      reads press.autoSg.measured, press.autoSg.floorOnly, store
    {
      System(press.View(), store.View())
    }

    constructor (press: MotionSupervisor, store: SettingsStorage)
      requires press.Valid() && store.motion == press.motion
      ensures Valid() && this.press == press && this.store == store && queued == NO_REQUESTS
    {
      this.press, this.store := press, store;
      queued := NO_REQUESTS;
    }

    /** Taps are counted, not latched. */
    method RequestToggleRun()
      modifies this
      ensures queued == old(queued).(toggles := old(queued).toggles + 1)
    {
      queued := queued.(toggles := queued.toggles + 1);
    }

    method RequestProfile(idx: nat)
      modifies this
      ensures queued == old(queued).(profile := idx)
    {
      queued := queued.(profile := idx);
    }

    method RequestCurrentMa(ma: int)
      modifies this
      ensures queued == old(queued).(currentMa := ma)
    {
      queued := queued.(currentMa := ma);
    }

    /** The gate's view of the machine. */
    method GateInputNow() returns (g: GateInput)
      ensures g == GateView(press.motion.View())
    {
      var m := press.motion;
      var sgSetUp := TripsSet(m);
      g := GateInput(m.run, m.geo.calibrated, m.geo.stale, m.batch.target, sgSetUp);
    }

    /** Every queued toggle in order, up to the first that is refused. */
    method ReplayToggles(count: nat, now: int, pos: int)
      requires Valid()
      modifies press, press.motion, press.stall, press.stroke, press.autoSg
      ensures Valid() && press.View() == Toggled(old(press.View()), count, now, pos)
    {
      hide Started, Stopped, GateView, GateToggleRun;
      ghost var was := press.View();
      var n := count;
      while n > 0
        invariant Valid()
        invariant Toggled(press.View(), n, now, pos) == Toggled(was, count, now, pos)
      {
        var g := GateInputNow();
        ToggledStep(press.View(), n, now, pos);
        if GateToggleRun(g) != Nothing {
          break;
        }
        if CanStart(press.motion.run) {
          press.StartRunBetweenEndpoints(now, pos);
        } else {
          press.RequestGracefulStop(now);
        }
        n := n - 1;
      }
    }

    method StartBatch(now: int, pos: int)
      requires Valid()
      modifies press, press.motion, press.stall, press.stroke
      ensures Valid() && press.View() == BatchStarted(old(press.View()), now, pos)
    {
      hide Started;
      press.StartRunBetweenEndpoints(now, pos);
      if press.motion.run == Running {
        press.motion.batch := Batch(true, 0, press.motion.batch.target);
      }
    }

    method SetCurrent(ma: int)
      requires Valid()
      modifies press.motion`runCurrentMa
      ensures Valid() && press.View() == CurrentSet(old(press.View()), ma)
    {
      if ma >= 0 {
        press.motion.runCurrentMa := if ma < RUN_CURRENT_MIN then RUN_CURRENT_MIN
                                     else if ma > RUN_CURRENT_MAX then RUN_CURRENT_MAX else ma;
      }
    }

    method SearchCommands(r: Requests, f: Field)
      requires Valid()
      modifies press, press.motion, press.stall, press.stroke, press.autoSg
      modifies press.autoSg.measured, press.autoSg.floorOnly
      ensures Valid()
      ensures press.View() == HomeCommand(AutoSgCommand(CalibrateCommand(old(press.View()), r, f), r, f), r, f)
    {
      hide CalibratedWorld, AutoStarted, Homed, GateCalibrate, GateAutoSg, GateReturnHome, GateView;
      if r.calibrate {
        var g := GateInputNow();
        if GateCalibrate(g) == Nothing {
          var ok := press.CalibrateEndpointsSensorless(f.cal);
        }
      }
      if r.autoSg {
        var g := GateInputNow();
        if GateAutoSg(g) == Nothing {
          var ok := press.StartAutoSg(f.now, f.posAuto);
        }
      }
      if r.returnHome {
        var g := GateInputNow();
        if GateReturnHome(g) == Nothing {
          press.SafeCreepHome(f.home);
        }
      }
    }

    method StopAndBatchCommands(r: Requests, f: Field)
      requires Valid()
      modifies press, press.motion, press.stall, press.stroke, press.autoSg
      ensures Valid() && press.View() == BatchCommand(StopCommand(old(press.View()), r, f), r, f)
    {
      hide Stopped, BatchStarted, GateStop, GateBatchStart, GateView;
      if r.stop {
        var g := GateInputNow();
        if GateStop(g) == Nothing {
          press.RequestGracefulStop(f.now);
        }
      }
      if r.batchStart {
        var g := GateInputNow();
        if GateBatchStart(g) == Nothing {
          StartBatch(f.now, f.posBatch);
        }
      }
    }

    method ResetSettingsCommand(r: Requests, io: Io)
      requires Valid()
      modifies press`drive, press.motion, store
      ensures Valid() && View() == ResetCommand(old(View()), r, io)
    {
      hide WithDefaults, Capture, ProfileSet, Recomputed, Written;
      if r.reset {
        var g := GateInputNow();
        if GateResetSettings(g) == Nothing {
          ResetKeepsReady(press.View(), store.View(), io);
          store.ResetSettings(io.now, io.erased, io.resetOk);
          press.SetActiveProfile(press.motion.profiles.active);
        }
      }
    }

    method ProcessPendingCommands(f: Field, io: Io)
      requires Valid()
      modifies this, press, press.motion, press.stall, press.stroke, press.autoSg
      modifies press.autoSg.measured, press.autoSg.floorOnly, store
      ensures Valid() && queued == NO_REQUESTS
      ensures View() == Processed(old(View()), old(queued), f, io)
    {
      hide HomeCommand, AutoSgCommand, CalibrateCommand, StopCommand, BatchCommand, Toggled, ProfileSet, CurrentSet,
           ResetCommand, Tick, Ready;
      var r := queued;
      queued := NO_REQUESTS;
      SearchCommands(r, f);
      ReplayToggles(r.toggles, f.now, f.posToggle);
      StopAndBatchCommands(r, f);
      press.SetActiveProfile(r.profile);
      SetCurrent(r.currentMa);
      ResetSettingsCommand(r, io);
      store.TickSettings(io.now, io.tickOk);
    }
  }

  lemma ToggledStep(w: World, n: nat, now: int, pos: int)
    requires n > 0
    ensures Toggled(w, n, now, pos)
         == if GateToggleRun(GateView(w.m)) != Nothing then w
            else Toggled(if CanStart(w.m.run) then Started(w, now, pos) else Stopped(w, now), n - 1, now, pos)
    ensures Toggled(w, 0, now, pos) == w
  {
    hide Started, Stopped, GateView, GateToggleRun;
  }

  lemma ResetKeepsReady(w: World, s: Store, io: Io)
    ensures Ready(w.(m := ResetToDefaults(w.m, s, io.now, io.erased, io.resetOk).0))
  {
    hide Recomputed, Written, Capture;
  }
}
