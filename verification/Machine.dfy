/** The firmware's outer loop (main/app_main.cpp): booting, and one pump iteration at a time. */
module Machine {
  import opened MotionCmd
  import opened MotionState
  import opened Press
  import opened Runs
  import opened SettingsBlob
  import opened SettingsStore
  import opened Supervisor

  /** Compiled-in state, then what the flash holds. */
  method Boot(flash: Option<seq<byte>>, readable: bool, now: int, ok: bool) returns (c: MotionCommands)
    ensures fresh(c) && c.Valid() && c.queued == NO_REQUESTS
    ensures forall w: World, s: Store :: s.flash == flash ==>
              c.View() == Next(System(w, s), Reboot(readable, now, ok))
  {
    hide Load;
    BootReady(flash, readable, now, ok);
    var motion := new SharedMotion();
    var store := new SettingsStorage(motion, flash);
    store.LoadSettings(readable, now, ok);
    var press := new MotionSupervisor(motion);
    c := new MotionCommands(press, store);
  }

  /** handleMotion, then the commands queued since the last iteration. */
  method PumpIteration(c: MotionCommands, at: Sense, f: Field, io: Io)
    requires c.Valid()
    modifies c, c.press, c.press.motion, c.press.stall, c.press.stroke, c.press.autoSg
    modifies c.press.autoSg.measured, c.press.autoSg.floorOnly, c.store
    ensures c.Valid() && c.queued == NO_REQUESTS
    ensures c.View() == Next(old(c.View()), Pump(at, old(c.queued), f, io))
  {
    hide Handled, Processed;
    c.press.HandleMotion(at);
    c.ProcessPendingCommands(f, io);
  }
}
