/** Every run of the machine begins with a boot, and a boot meets what the theorems about runs
    start from. */
module Reachable {
  import opened JamDetection
  import opened Measuring
  import opened MotionCmd
  import opened MotionState
  import opened MotorFsm
  import opened Runs
  import opened SettingsBlob
  import opened SettingsStore
  import opened StallMonitor
  import opened Supervisor
  import opened SystemPowerCut
  import A = AutoSg

  /** The base of every run: whatever is on flash, whether or not it can be read or written, and
      whatever was in memory before. */
  lemma BootInv(y: System, readable: bool, now: int, ok: bool)
    ensures var z := Next(y, Reboot(readable, now, ok));
            Inv(z.w) && Afresh(z.w) && Guarded(z.w.m) && Recorded(z.w)
  {
    hide Load, FedRight, TakenAt, Summary;
    BootReady(y.s.flash, readable, now, ok);
    BootRecorded(Load(DEFAULTS, y.s.flash, readable, now, ok).0);
  }

  /** What a machine is that was booted, and what has happened to it since. */
  ghost predicate Sane(y: System, evs: seq<Event>, n: nat)
    requires n <= |evs|
  {
    var z := After(y, evs, n);
    && Inv(z.w) && Tracks(z.w, Evidence(y, evs, n))
    && ((forall k :: 0 <= k < n ==> !ClearsTrip(After(y, evs, k).w, evs[k])) ==> Guarded(z.w.m))
    && (TenBits(evs) ==> Recorded(z.w))
    && ((forall k :: 0 <= k < n ==> Ordinary(evs[k])) ==> Kept(z))
  }

  /** Every state of every run from every boot: nothing is assumed of the flash, of what was in
      memory, or of the events. */
  lemma {:induction false} EveryRun(y: System, readable: bool, now: int, ok: bool, evs: seq<Event>, n: nat)
    requires n <= |evs|
    ensures Sane(Next(y, Reboot(readable, now, ok)), evs, n)
  {
    hide Inv, Next, Afresh, Guarded, Recorded, Kept, InStep, After, Evidence, Tracks, ClearsTrip, Ordinary, TenBits;
    BootInv(y, readable, now, ok);
    BootKept(y, readable, now, ok);
    var z := Next(y, Reboot(readable, now, ok));
    AlwaysInv(z, evs, n);
    AlwaysTracked(z, evs, n);
    AlwaysGuarded(z, evs, n);
    if TenBits(evs) {
      AlwaysRecorded(z, evs, n);
    }
    if forall k :: 0 <= k < n ==> Ordinary(evs[k]) {
      AlwaysKept(z, evs, n);
    }
  }
}
