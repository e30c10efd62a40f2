/** Jam detection over whole runs: how long it stays set up, and from which readings a jam is
    raised. */
module JamDetection {
  import opened Config
  import opened Measuring
  import opened MotionCmd
  import opened MotionState
  import opened MotorFsm
  import opened Numbers
  import opened Runs
  import opened Safety
  import opened SettingsBlob
  import opened SettingsStore
  import opened StallMonitor
  import opened Supervisor
  import A = AutoSg
  import Endpoints

  // ---------------------------------------------------------------------------
  //  How long it stays set up
  // ---------------------------------------------------------------------------

  /** In an ordinary run every profile has a trip. */
  predicate Guarded(m: Motion) {
    m.run == Running && !m.auto.active ==> JamDetectionSetUp(m)
  }

  /** In this event a trip is set to 0 during an ordinary run. */
  predicate ClearsTrip(w: World, ev: Event) {
    && ev.Write? && ev.e.Trip? && 0 <= ev.e.profile < NUM_PROFILES && ev.e.value == 0
    && w.m.run == Running && !w.m.auto.active
  }

  lemma HandledGuarded(w: World, at: Sense)
    requires Inv(w) && Guarded(w.m)
    ensures Guarded(Handled(w, at).m)
  {
    hide Ran, Inv, JamDetectionSetUp, Completes, TimedOut;
    if w.m.auto.active {
      HandledGivesBack(w, at);
    } else {
      HandledKeepsTrips(w, at);
      TripsKeepSetUp(w.m, Handled(w, at).m);
    }
  }

  lemma TripsKeepSetUp(m: Motion, n: Motion)
    ensures m.profiles.trips == n.profiles.trips ==> JamDetectionSetUp(m) == JamDetectionSetUp(n)
  {
  }

  lemma StartedGuarded(w: World, now: int, pos: int)
    ensures Guarded(w.m) ==> Guarded(Started(w, now, pos).m) && Guarded(AutoStarted(w, now, pos).m)
  {
    hide FirstTarget, MeasuredTrips;
  }

  lemma StoppedGuarded(w: World, now: int)
    ensures Guarded(w.m) ==> Guarded(Stopped(w, now).m)
  {
    hide MeasuredTrips;
  }

  lemma SearchGuarded(w: World, h: HomeRun, c: CalRun)
    ensures Guarded(w.m) ==> Guarded(Homed(w, h).m) && Guarded(CalibratedWorld(w, c).m)
  {
    hide MeasuredGeometry, Recomputed, LastNudge, CalSucceeds;
  }

  lemma {:induction false} ToggledGuarded(w: World, n: nat, now: int, pos: int)
    requires Guarded(w.m)
    ensures Guarded(Toggled(w, n, now, pos).m)
    decreases n
  {
    hide Started, AutoStarted, Stopped, GateToggleRun, GateView, Guarded;
    if n > 0 && GateToggleRun(GateView(w.m)) == Nothing {
      StartedGuarded(w, now, pos);
      StoppedGuarded(w, now);
      ToggledGuarded(if CanStart(w.m.run) then Started(w, now, pos) else Stopped(w, now), n - 1, now, pos);
    }
  }

  lemma BatchGuarded(w: World, now: int, pos: int)
    requires Guarded(w.m)
    ensures Guarded(BatchStarted(w, now, pos).m)
  {
    hide Started, AutoStarted;
    StartedGuarded(w, now, pos);
  }

  lemma SettingsGuarded(w: World, idx: int, ma: int)
    ensures Guarded(w.m) ==> Guarded(CurrentSet(ProfileSet(w, idx), ma).m)
  {
  }

  lemma CommandedGuarded(w: World, r: Requests, f: Field)
    requires Guarded(w.m)
    ensures Guarded(Commanded(w, r, f).m)
  {
    hide Guarded, CalibratedWorld, AutoStarted, Homed, Toggled, Started, Stopped, BatchStarted, ProfileSet, CurrentSet,
         GateView, GateBatchStart, GateStop, GateReturnHome, GateAutoSg, GateCalibrate, Ready;
    SearchGuarded(w, f.home, f.cal);
    var a := CalibrateCommand(w, r, f);
    StartedGuarded(a, f.now, f.posAuto);
    var b := AutoSgCommand(a, r, f);
    SearchGuarded(b, f.home, f.cal);
    var c := HomeCommand(b, r, f);
    ToggledGuarded(c, r.toggles, f.now, f.posToggle);
    var d := Toggled(c, r.toggles, f.now, f.posToggle);
    StoppedGuarded(d, f.now);
    var e := StopCommand(d, r, f);
    BatchGuarded(e, f.now, f.posBatch);
    SettingsGuarded(BatchCommand(e, r, f), r.profile, r.currentMa);
  }

  lemma ResetGuarded(y: System, r: Requests, io: Io)
    ensures Guarded(y.w.m) ==> Guarded(ResetCommand(y, r, io).w.m)
  {
    hide Recomputed, Written, Capture;
  }

  /** An edit leaves an ordinary run guarded unless it clears a trip, and only then. */
  lemma EditGuarded(w: World, e: Edit, now: int, ok: bool)
    ensures Guarded(w.m) ==> (Guarded(Edited(w.m, e)) <==> !ClearsTrip(w, Write(e, now, ok)))
  {
    hide Recomputed;
  }

  lemma NextGuarded(y: System, ev: Event)
    requires Inv(y.w) && Guarded(y.w.m)
    ensures Guarded(Next(y, ev).w.m) <==> !ClearsTrip(y.w, ev)
  {
    hide Inv, Guarded, Handled, Commanded, ResetCommand, Tick, SaveNow, Load, Edited;
    match ev
    case Pump(at, r, f, io) =>
      HandledGuarded(y.w, at);
      CommandedGuarded(Handled(y.w, at), r, f);
      ResetGuarded(y.(w := Commanded(Handled(y.w, at), r, f)), r, io);
    case Write(e, now, ok) =>
      EditGuarded(y.w, e, now, ok);
    case Reboot(readable, now, ok) =>
      BootReady(y.s.flash, readable, now, ok);
      IdleGuarded(Load(DEFAULTS, y.s.flash, readable, now, ok).0);
  }

  lemma IdleGuarded(m: Motion)
    ensures m.run == Idle ==> Guarded(m)
  {
  }

  /** In any run every ordinary run of the press is guarded throughout, as long as nobody sets a
      trip to 0 while the press is in one ... */
  lemma {:induction false} AlwaysGuarded(y: System, evs: seq<Event>, n: nat)
    requires n <= |evs| && Inv(y.w) && Guarded(y.w.m)
    ensures (forall k :: 0 <= k < n ==> !ClearsTrip(After(y, evs, k).w, evs[k])) ==> Guarded(After(y, evs, n).w.m)
  {
    hide Inv, Next, Guarded, ClearsTrip;
    if n > 0 && forall k :: 0 <= k < n ==> !ClearsTrip(After(y, evs, k).w, evs[k]) {
      AlwaysGuarded(y, evs, n - 1);
      AlwaysInv(y, evs, n - 1);
      NextGuarded(After(y, evs, n - 1), evs[n - 1]);
    }
  }

  /** ... and only then: jam detection stays set up between all events of a run if and only if
      no event of it clears a trip of a press in an ordinary run. */
  lemma {:induction false} GuardedExactly(y: System, evs: seq<Event>, n: nat)
    requires n <= |evs| && Inv(y.w) && Guarded(y.w.m)
    ensures (forall k :: 0 <= k <= n ==> Guarded(After(y, evs, k).w.m))
            <==> forall k :: 0 <= k < n ==> !ClearsTrip(After(y, evs, k).w, evs[k])
  {
    hide Inv, Next, Guarded, ClearsTrip, After;
    if k: nat :| k < n && ClearsTrip(After(y, evs, k).w, evs[k]) {
      AlwaysInv(y, evs, k);
      AfterStep(y, evs, k);
      if Guarded(After(y, evs, k).w.m) {
        NextGuarded(After(y, evs, k), evs[k]);
        assert !Guarded(After(y, evs, k + 1).w.m);
      }
    } else {
      forall k | 0 <= k <= n
        ensures Guarded(After(y, evs, k).w.m)
      {
        AlwaysGuarded(y, evs, k);
      }
    }
  }

  // ---------------------------------------------------------------------------
  //  What a jam is raised from
  // ---------------------------------------------------------------------------

  /** The pump looks at a reading in this step and counts it for or against a jam. */
  predicate Counted(w: World, at: Sense) {
    && w.m.run == Running && !TimedOut(w, at.now) && at.moving && Samples(w.m, at)
    && at.sg > SG_FLOOR && EffectiveTrip(w.m) > 0
  }

  /** The stroke goes on outside the work zone: what was counted so far still counts. */
  predicate StrokeGoesOn(w: World, at: Sense) {
    && w.m.run == Running && at.moving && (Blanked(w.m, at.now) || !InZone(w.m, at.pos))
    && Handled(w, at).m.run == Running
  }

  function Extended(w: World, at: Sense, rs: seq<Reading>): seq<Reading> {
    if Counted(w, at) then rs + [Reading(at.sg, EffectiveTrip(w.m))] else rs
  }

  /** The readings counted on the current stroke, since it began or left the work zone, each
      with the trip it was held against. */
  function Evidence(y: System, evs: seq<Event>, n: nat): seq<Reading>
    requires n <= |evs|
  {
    hide Next, Ready, Handled, Counted, StrokeGoesOn, Extended;
    if n == 0 || evs[n - 1].Reboot? then []
    else if evs[n - 1].Write? then Evidence(y, evs, n - 1)
    else
      var w, at := After(y, evs, n - 1).w, evs[n - 1].at;
      if StrokeGoesOn(w, at) then Extended(w, at, Evidence(y, evs, n - 1)) else []
  }

  /** The stall counter is the tally of `rs`, none of which has raised a jam. */
  ghost predicate Tracks(w: World, rs: seq<Reading>) {
    w.m.run == Running ==> w.stall == Tallied(STALL, rs) && !HasJammed(STALL, rs)
  }

  lemma OneMoreReading(rs: seq<Reading>, r: Reading)
    ensures Tallied(STALL, rs + [r]) == Count(STALL, Tallied(STALL, rs), r.sg, r.trip)
    ensures Jams(STALL, rs + [r]) == Fires(STALL, Tallied(STALL, rs), r.sg, r.trip)
    ensures HasJammed(STALL, rs + [r]) <==> Jams(STALL, rs + [r]) || HasJammed(STALL, rs)
  {
    hide Count, Fires;
    assert (rs + [r])[..|rs|] == rs;
  }

  /** What one step does to the counter of a press that runs on. */
  lemma MonitoredStall(w: World, at: Sense)
    ensures Inv(w) && w.m.run == Running && Monitored(w, at).m.run == Running ==>
              Monitored(w, at).stall
              == (if !Blanked(w.m, at.now) && InZone(w.m, at.pos) then RESET
                  else if Samples(w.m, at) && at.sg > SG_FLOOR && EffectiveTrip(w.m) > 0
                  then Count(STALL, w.stall, at.sg, EffectiveTrip(w.m)) else w.stall)
  {
    hide Blanked, InZone, InDecelWindow, HeadingDown, Count, Add, Fires, A.Stroke;
  }

  lemma ArrivedStall(w: World, now: int)
    ensures Inv(w) && w.m.run == Running && Arrived(w, now).m.run == Running ==>
              Arrived(w, now).stall == RESET
  {
    hide HeadingDown, Endpoints.FlipTarget, MeasuredTrips, A.StrokeDone, A.Result, A.Stroke, Add, Since;
  }

  lemma HandledTracks(w: World, at: Sense, rs: seq<Reading>)
    requires Inv(w) && Tracks(w, rs)
    ensures Tracks(Handled(w, at), if StrokeGoesOn(w, at) then Extended(w, at, rs) else [])
  {
    hide Inv, Arrived, Monitored, Stopped, Blanked, InZone, Samples, TimedOut, NearPos, Since, Count, Fires, Tallied,
         HasJammed, Jams, EffectiveTrip, MeasuredTrips, A.Stroke;
    NothingTallied();
    if w.m.run == Running && Handled(w, at).m.run == Running {
      if TimedOut(w, at.now) {
        TimedOutStops(w, at);
      } else if !at.moving {
        ArrivedStall(w, at.now);
      } else {
        MonitoredStall(w, at);
        if Counted(w, at) {
          OneMoreReading(rs, Reading(at.sg, EffectiveTrip(w.m)));
          JamExactly(w, at);
        }
      }
    }
  }

  lemma TimedOutStops(w: World, at: Sense)
    ensures w.m.run == Running && TimedOut(w, at.now) ==> Handled(w, at).m.run == Stopping
  {
    hide MeasuredTrips, TimedOut;
  }

  lemma NothingTallied()
    ensures Tallied(STALL, []) == RESET && !HasJammed(STALL, [])
  {
  }

  lemma CommandsTrack(w: World, r: Requests, f: Field, rs: seq<Reading>)
    requires Inv(w) && Tracks(w, rs)
    ensures Tracks(Commanded(w, r, f), if w.m.run == Running then rs else [])
  {
    hide Inv, Tallied, HasJammed, Commanded, Stopped, ProfileSet, CurrentSet;
    NothingTallied();
    if w.m.run == Running {
      RunningCommands(w, r, f);
      StopsFromRunning(w, f.now);
      SettingsKeepStall(if r.toggles > 0 || r.stop then Stopped(w, f.now) else w, r.profile, r.currentMa);
    } else {
      CommandsStartAfresh(w, r, f);
    }
  }

  lemma SettingsKeepStall(w: World, idx: int, ma: int)
    ensures var n := CurrentSet(ProfileSet(w, idx), ma); n.stall == w.stall && n.m.run == w.m.run
  {
  }

  /** Whatever begins a run starts the count afresh. */
  predicate Afresh(w: World) {
    w.m.run == Running ==> w.stall == RESET
  }

  lemma StartedAfresh(w: World, now: int, pos: int)
    ensures Afresh(w) ==>
              Afresh(Started(w, now, pos)) && Afresh(AutoStarted(w, now, pos)) && Afresh(BatchStarted(w, now, pos))
  {
    hide FirstTarget, MeasuredTrips, JamDetectionSetUp;
  }

  lemma StoppedAfresh(w: World, now: int, h: HomeRun, c: CalRun)
    ensures Afresh(w) ==>
              Afresh(Stopped(w, now)) && Afresh(Homed(w, h)) && Afresh(CalibratedWorld(w, c))
  {
    hide MeasuredTrips, MeasuredGeometry, Recomputed, LastNudge, CalSucceeds;
  }

  lemma {:induction false} ToggledAfresh(w: World, n: nat, now: int, pos: int, h: HomeRun, c: CalRun)
    requires Afresh(w)
    ensures Afresh(Toggled(w, n, now, pos))
    decreases n
  {
    hide Started, AutoStarted, BatchStarted, Homed, CalibratedWorld, Stopped, GateToggleRun, GateView, Afresh;
    if n > 0 && GateToggleRun(GateView(w.m)) == Nothing {
      StartedAfresh(w, now, pos);
      StoppedAfresh(w, now, h, c);
      ToggledAfresh(if CanStart(w.m.run) then Started(w, now, pos) else Stopped(w, now), n - 1, now, pos, h, c);
    }
  }

  lemma CommandsStartAfresh(w: World, r: Requests, f: Field)
    requires Afresh(w)
    ensures Afresh(Commanded(w, r, f))
  {
    hide CalibratedWorld, AutoStarted, Homed, Toggled, Started, Stopped, BatchStarted, ProfileSet, CurrentSet,
         GateView, GateBatchStart, GateStop, GateReturnHome, GateAutoSg, GateCalibrate, Ready, Afresh;
    StoppedAfresh(w, f.now, f.home, f.cal);
    var a := CalibrateCommand(w, r, f);
    StartedAfresh(a, f.now, f.posAuto);
    var b := AutoSgCommand(a, r, f);
    StoppedAfresh(b, f.now, f.home, f.cal);
    var c := HomeCommand(b, r, f);
    ToggledAfresh(c, r.toggles, f.now, f.posToggle, f.home, f.cal);
    var d := Toggled(c, r.toggles, f.now, f.posToggle);
    StoppedAfresh(d, f.now, f.home, f.cal);
    var e := StopCommand(d, r, f);
    StartedAfresh(e, f.now, f.posBatch);
    AfreshSettings(BatchCommand(e, r, f), r.profile, r.currentMa);
  }

  lemma AfreshSettings(w: World, idx: int, ma: int)
    ensures Afresh(w) ==> Afresh(CurrentSet(ProfileSet(w, idx), ma))
  {
  }

  lemma ResetTracks(y: System, r: Requests, io: Io, rs: seq<Reading>)
    ensures Tracks(y.w, rs) ==> Tracks(ResetCommand(y, r, io).w, rs)
  {
    hide Recomputed, Written, Capture, Tallied, HasJammed;
  }

  lemma NextTracks(y: System, ev: Event, rs: seq<Reading>)
    requires Inv(y.w) && Tracks(y.w, rs)
    ensures Tracks(Next(y, ev).w,
                   if ev.Reboot? then [] else if ev.Write? then rs
                   else if StrokeGoesOn(y.w, ev.at) then Extended(y.w, ev.at, rs) else [])
  {
    hide Inv, Handled, Commanded, ResetCommand, Tick, SaveNow, Load, Edited, Tallied, HasJammed, Counted, Extended,
         Blanked, InZone;
    NothingTallied();
    match ev
    case Pump(at, r, f, io) =>
      HandledTracks(y.w, at, rs);
      HandledInv(y.w, at);
      var a, qs := Handled(y.w, at), if StrokeGoesOn(y.w, at) then Extended(y.w, at, rs) else [];
      CommandsTrack(a, r, f, qs);
      ResetTracks(y.(w := Commanded(a, r, f)), r, io, if a.m.run == Running then qs else []);
    case Write(e, now, ok) =>
      EditKeepsProfiles(y.w.m, e);
    case Reboot(readable, now, ok) =>
      BootReady(y.s.flash, readable, now, ok);
  }

  /** In any run the stall counter of a running press is the tally of exactly the readings counted
      on the current stroke, and none of them has raised a jam yet. */
  lemma {:induction false} AlwaysTracked(y: System, evs: seq<Event>, n: nat)
    requires n <= |evs| && Inv(y.w) && Afresh(y.w)
    ensures Tracks(After(y, evs, n).w, Evidence(y, evs, n))
  {
    hide Inv, Next, Tallied, HasJammed, Counted, StrokeGoesOn, Extended;
    if n == 0 {
      NothingTallied();
    } else {
      AlwaysTracked(y, evs, n - 1);
      AlwaysInv(y, evs, n - 1);
      NextTracks(After(y, evs, n - 1), evs[n - 1], Evidence(y, evs, n - 1));
    }
  }

  lemma StallsOnReading(w: World, at: Sense)
    requires Inv(w) && w.m.run == Running
    ensures Handled(w, at).m.run == Stalled <==>
              Counted(w, at) && Fires(STALL, w.stall, at.sg, EffectiveTrip(w.m))
    ensures Handled(w, at).m.run == Stalled ==> !w.m.auto.active
  {
    hide Inv, Monitored, Samples, TimedOut, Fires, EffectiveTrip, Arrived;
    if TimedOut(w, at.now) {
      TimedOutStops(w, at);
    } else if !at.moving {
      ArrivedNoStall(w, at.now);
    } else {
      JamExactly(w, at);
    }
  }

  lemma ArrivedNoStall(w: World, now: int)
    ensures Inv(w) && w.m.run == Running ==> Arrived(w, now).m.run in {Running, Stopping}
  {
    hide HeadingDown, Endpoints.FlipTarget, MeasuredTrips, A.StrokeDone, A.Result, A.Stroke, Add, Since;
  }

  /** A jam, in any run: the press stalls on a reading if and only if that reading is counted and
      completes a jam over what was counted on the stroke before it. So no stroke stalls without
      RUN_SG_HIGH_NEEDED of its readings above the trip they were held against, the last one
      among them; and it stalls as soon as those outnumber the decays the others allow by that
      many. Spikes with at least RUN_SG_LOW_DECAY_COUNT low readings between any two of them never
      stall it, however many they are. Auto SG never stalls. */
  lemma JamFromEvidence(y: System, evs: seq<Event>, n: nat)
    requires n < |evs| && Inv(y.w) && Afresh(y.w) && evs[n].Pump?
    ensures var w, at := After(y, evs, n).w, evs[n].at;
            var rs := Extended(w, at, Evidence(y, evs, n));
            w.m.run == Running ==>
              && (Handled(w, at).m.run == Stalled <==> Counted(w, at) && Jams(STALL, rs))
              && (Handled(w, at).m.run == Stalled ==>
                    && !w.m.auto.active && Highs(rs) >= RUN_SG_HIGH_NEEDED
                    && at.sg > w.m.profiles.trips.At(w.m.profiles.active))
              && (Spaced(STALL, rs) ==> Handled(w, at).m.run != Stalled)
              && (Counted(w, at) && Highs(rs) - Lows(rs) / RUN_SG_LOW_DECAY_COUNT >= RUN_SG_HIGH_NEEDED ==>
                    Handled(w, at).m.run == Stalled)
  {
    hide Inv, Next, After, Evidence, Handled, Counted, Tallied, HasJammed, Fires, Jams, Highs, Lows;
    var w, at := After(y, evs, n).w, evs[n].at;
    AlwaysTracked(y, evs, n);
    AlwaysInv(y, evs, n);
    if w.m.run != Running {
      return;
    }
    StallsOnReading(w, at);
    CountedAgainstTrip(w, at);
    var es := Evidence(y, evs, n);
    var rs := Extended(w, at, es);
    if Counted(w, at) {
      var r := Reading(at.sg, EffectiveTrip(w.m));
      OneMoreReading(es, r);
      if Jams(STALL, rs) {
        JamNeedsHighs(STALL, rs);
        if Spaced(STALL, rs) {
          SpikesNeverJam(STALL, rs);
        }
      }
      if Highs(rs) - Lows(rs) / RUN_SG_LOW_DECAY_COUNT >= RUN_SG_HIGH_NEEDED {
        EnoughHighsJam(STALL, rs);
      }
    }
  }

  lemma CountedAgainstTrip(w: World, at: Sense)
    ensures Counted(w, at) ==> EffectiveTrip(w.m) > 0
    ensures !w.m.auto.active ==> EffectiveTrip(w.m) == w.m.profiles.trips.At(w.m.profiles.active)
  {
    hide Samples;
  }
}
