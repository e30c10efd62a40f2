/** How a run ends: by a jam, which backs the press off; by a stop, which brings it to UP; and,
    for Auto SG, by taking too long over a profile. */
module RunEnds {
  import opened Config
  import opened Conservation
  import opened Endpoints
  import opened Measuring
  import opened MotionCmd
  import opened MotionState
  import opened MotorFsm
  import opened Numbers
  import opened Runs
  import opened SettingsBlob
  import opened SettingsStore
  import opened StallMonitor
  import opened Statistics
  import opened Strokes
  import opened StrokeTimes
  import opened Supervisor
  import A = AutoSg

  // ---------------------------------------------------------------------------
  //  A jam
  // ---------------------------------------------------------------------------

  /** From anywhere between the endpoints the move takes the press its whole length further
      from where the stroke was heading. */
  ghost predicate BacksAway(nudge: int, m: Motion) {
    forall p :: m.geo.up <= p <= m.geo.down ==>
      Distance(p + nudge, m.currentTarget) == Distance(p, m.currentTarget) + RUN_BACKOFF_STEPS
  }

  function Distance(p: int, q: int): nat {
    Abs(p - q)
  }

  /** What a jam leaves: `n` of a press that was in `m` with profile `p` queued or active. */
  ghost predicate JamLeaves(m: Motion, n: Motion, nudge: int, lost: bool) {
    && (m.currentTarget in {m.geo.up, m.geo.down} ==> BacksAway(nudge, m))
    && !n.batch.active && !n.auto.active && n.profiles.trips == m.profiles.trips
    && n.geo == m.geo.(stale := lost)
  }

  lemma JamLatchedLeaves(w: World, at: Sense)
    requires Inv(w) && w.m.run == Running && !w.m.auto.active
    ensures var z := JamLatched(w, at); JamLeaves(w.m, z.m, z.drive.nudge, at.lost) && z.m.run == Stalled
    ensures JamLatched(w, at).drive.speedHz == CREEP_HOME_SPEED && JamLatched(w, at).drive.accel == CREEP_HOME_ACCEL
  {
    hide A.Stroke;
    if w.m.currentTarget in {w.m.geo.up, w.m.geo.down} {
      BackedAway(w.m);
    }
  }

  lemma BackedAway(m: Motion)
    ensures m.currentTarget in {m.geo.up, m.geo.down} && m.geo.up < m.geo.down ==>
              BacksAway(if HeadingDown(m) then -RUN_BACKOFF_STEPS else RUN_BACKOFF_STEPS, m)
  {
  }

  /** Between the readings and the latch nothing changes that the latch looks at. */
  lemma MonitoredLeaves(w: World, at: Sense)
    requires Inv(w) && w.m.run == Running && Monitored(w, at).m.run == Stalled
    ensures var z := Monitored(w, at);
            && JamLeaves(w.m, z.m, z.drive.nudge, at.lost)
            && z.drive.speedHz == CREEP_HOME_SPEED && z.drive.accel == CREEP_HOME_ACCEL
            && z.m.profiles.active == Wanted(w)
  {
    hide Blanked, InZone, InDecelWindow, Count, Fires, Add, A.Stroke, JamLeaves, Wanted;
    var t, s := EffectiveTrip(w.m), Count(STALL, w.stall, at.sg, EffectiveTrip(w.m));
    var a := w.(stroke := Add(w.stroke, at.sg),
                past := w.past.(log := w.past.log + [Sampled(at.sg, w.m.profiles.active)]));
    var b := a.(stall := s, m := a.m.(high := s.high, low := s.low));
    JamLatchedSame(w, b, at);
    JamLatchedLeaves(w, at);
  }

  /** The operator's profile: given back after Auto SG, queued, or active. */
  function Wanted(w: World): int {
    if w.m.auto.active then w.saved.profile
    else if w.m.profiles.pending >= 0 then w.m.profiles.pending
    else w.m.profiles.active
  }

  lemma JamLatchedSame(w: World, b: World, at: Sense)
    ensures b.m == w.m.(high := b.m.high, low := b.m.low) && b.drive == w.drive && !w.m.auto.active ==>
              JamLatched(b, at).drive == JamLatched(w, at).drive && JamLatched(b, at).m == JamLatched(w, at).m
    ensures b.m == w.m.(high := b.m.high, low := b.m.low) && b.drive == w.drive && !w.m.auto.active ==>
              JamLatched(w, at).m.profiles.active == Wanted(w)
  {
  }

  /** In any run: a jam backs the press off, slowly, the way it came and not into what it hit; the
      batch is over, the queued profile lands, no trip changes, and the position is stale exactly
      if the stop could not be waited for. */
  lemma {:induction false} JamBacksOff(y: System, evs: seq<Event>, n: nat)
    requires n < |evs| && Inv(y.w) && evs[n].Pump?
    ensures var w, z := After(y, evs, n).w, Handled(After(y, evs, n).w, evs[n].at);
            w.m.run == Running && z.m.run == Stalled ==>
              && JamLeaves(w.m, z.m, z.drive.nudge, evs[n].at.lost) && z.m.profiles.active == Wanted(w)
              && z.drive.speedHz == CREEP_HOME_SPEED && z.drive.accel == CREEP_HOME_ACCEL
  {
    hide Inv, Next, Arrived, Monitored, Stopped, TimedOut, JamLeaves, Wanted, MeasuredTrips, After;
    AlwaysInv(y, evs, n);
    var w, at := After(y, evs, n).w, evs[n].at;
    if w.m.run == Running && Handled(w, at).m.run == Stalled {
      if TimedOut(w, at.now) {
        StopsRunning(AutoEnded(w, false), at.now);
      } else if !at.moving {
        ArrivedRuns(w, at.now);
      } else {
        MonitoredLeaves(w, at);
      }
    }
  }

  // ---------------------------------------------------------------------------
  //  A stop
  // ---------------------------------------------------------------------------

  /** A press that has begun to stop at `now`, on its way to UP. */
  predicate HeadsHome(z: World, now: int) {
    && z.m.run == Stopping && z.m.currentTarget == z.m.geo.up == z.drive.target && z.drive.accel == RUN_DECEL
    && z.m.stopEntryMs == now && !z.m.batch.active && !z.m.auto.active && z.m.profiles.pending == -1
  }

  lemma StoppedHeadsHome(w: World, now: int)
    ensures w.m.run == Running ==> HeadsHome(Stopped(w, now), now)
  {
    hide MeasuredTrips;
  }

  lemma TurnRuns(w: World, now: int)
    ensures Turned(w, now).m.run == w.m.run
  {
    hide FlipTarget;
  }

  lemma HandledHeadsHome(w: World, at: Sense)
    requires Inv(w) && w.m.run == Running && Handled(w, at).m.run == Stopping
    ensures HeadsHome(Handled(w, at), at.now)
  {
    hide Inv, Monitored, Stopped, Turned, TimedOut, MeasuredTrips, HeadsHome, AutoStroke, AutoEnds, StrokeCounted,
         HeadingDown, Since;
    if TimedOut(w, at.now) {
      StoppedHeadsHome(AutoEnded(w, false), at.now);
    } else if at.moving {
      MonitoredRuns(w, at);
    } else {
      var t := Since(at.now, w.m.lastChangeMs);
      CountedKeeps(w.m, t);
      var a := if Counts(w.m) then w.(m := StrokeCounted(w.m, t)) else w;
      var b := StrokeReset(AutoStroke(a, at.now));
      AutoKeepsCounts(a, at.now);
      StoppedHeadsHome(a, at.now);
      StoppedHeadsHome(b, at.now);
      TurnRuns(StrokeReset(a), at.now);
      TurnRuns(b, at.now);
    }
  }

  lemma MonitoredRuns(w: World, at: Sense)
    ensures w.m.run == Running ==> Monitored(w, at).m.run in {Running, Stalled}
  {
    hide Blanked, InZone, InDecelWindow, HeadingDown, Count, Fires, Add;
  }

  lemma SettingsHeadHome(w: World, now: int, idx: int, ma: int)
    ensures HeadsHome(w, now) ==> HeadsHome(CurrentSet(ProfileSet(w, idx), ma), now)
  {
  }

  /** Whatever a pass stops, it has stopped like that. */
  predicate StopsHome(w: World, f: Field) {
    w.m.run == Stopping ==> HeadsHome(w, f.now)
  }

  lemma StartsHome(w: World, f: Field, pos: int)
    ensures StopsHome(w, f) ==>
              forall z :: z in {Started(w, f.now, pos), AutoStarted(w, f.now, pos), BatchStarted(w, f.now, pos)} ==>
                StopsHome(z, f)
  {
    hide FirstTarget, JamDetectionSetUp, MeasuredTrips;
  }

  lemma SearchesHome(w: World, f: Field, h: HomeRun, c: CalRun)
    ensures StopsHome(w, f) ==> StopsHome(Homed(w, h), f) && StopsHome(CalibratedWorld(w, c), f)
  {
    hide MeasuredGeometry, Recomputed, LastNudge, CalSucceeds;
  }

  lemma StoppingHome(w: World, f: Field)
    requires StopsHome(w, f)
    ensures StopsHome(Stopped(w, f.now), f)
  {
    hide Stopped, HeadsHome;
    if w.m.run == Running {
      StoppedHeadsHome(w, f.now);
    } else {
      StoppedElse(w, f.now);
    }
  }

  lemma StoppedElse(w: World, now: int)
    ensures w.m.run != Running ==> Stopped(w, now) == w
  {
  }

  lemma {:induction false} TogglesHome(w: World, n: nat, f: Field)
    requires StopsHome(w, f)
    ensures StopsHome(Toggled(w, n, f.now, f.posToggle), f)
    decreases n
  {
    hide Started, AutoStarted, BatchStarted, Stopped, GateToggleRun, GateView, StopsHome;
    if n > 0 && GateToggleRun(GateView(w.m)) == Nothing {
      StartsHome(w, f, f.posToggle);
      StoppingHome(w, f);
      TogglesHome(if CanStart(w.m.run) then Started(w, f.now, f.posToggle) else Stopped(w, f.now), n - 1, f);
    }
  }

  lemma SettingsHome(w: World, f: Field, idx: int, ma: int)
    ensures StopsHome(w, f) ==> StopsHome(CurrentSet(ProfileSet(w, idx), ma), f)
  {
  }

  lemma CommandsHome(w: World, r: Requests, f: Field)
    requires StopsHome(w, f)
    ensures StopsHome(Commanded(w, r, f), f)
  {
    hide CalibratedWorld, AutoStarted, Homed, Toggled, Started, Stopped, BatchStarted, ProfileSet, CurrentSet,
         GateView, GateBatchStart, GateStop, GateReturnHome, GateAutoSg, GateCalibrate, Ready, StopsHome;
    SearchesHome(w, f, f.home, f.cal);
    var a := CalibrateCommand(w, r, f);
    StartsHome(a, f, f.posAuto);
    var b := AutoSgCommand(a, r, f);
    SearchesHome(b, f, f.home, f.cal);
    var c := HomeCommand(b, r, f);
    TogglesHome(c, r.toggles, f);
    var d := Toggled(c, r.toggles, f.now, f.posToggle);
    StoppingHome(d, f);
    var e := StopCommand(d, r, f);
    StartsHome(e, f, f.posBatch);
    SettingsHome(BatchCommand(e, r, f), f, r.profile, r.currentMa);
  }

  /** In any run: whatever makes a running press stop, it is from then on headed for UP, its batch
      and Auto SG over, and its stop timed from that moment. */
  lemma StopsHeadUp(y: System, evs: seq<Event>, n: nat)
    requires n < |evs| && Inv(y.w)
    ensures var w, z, ev := After(y, evs, n).w, After(y, evs, n + 1).w, evs[n];
            w.m.run == Running && z.m.run == Stopping ==>
              ev.Pump? && HeadsHome(z, if Handled(w, ev.at).m.run == Stopping then ev.at.now else ev.f.now)
  {
    hide Inv, Handled, Commanded, ResetCommand, Tick, SaveNow, Load, Edited, Stopped, ProfileSet, CurrentSet, HeadsHome,
         Ready;
    AlwaysInv(y, evs, n);
    var v, ev := After(y, evs, n), evs[n];
    if v.w.m.run == Running && After(y, evs, n + 1).w.m.run == Stopping {
      match ev
      case Pump(at, r, f, io) =>
        HandledInv(v.w, at);
        var a := Handled(v.w, at);
        ResetLeavesIdle(v.(w := Commanded(a, r, f)), r, io);
        if a.m.run == Stopping {
          HandledHeadsHome(v.w, at);
          StoppingRefuses(a, r, f);
          SettingsHeadHome(a, at.now, r.profile, r.currentMa);
        } else {
          CommandsHome(a, r, f);
        }
      case Write(e, now, ok) =>
        EditKeepsProfiles(v.w.m, e);
      case Reboot(readable, now, ok) =>
        BootReady(v.s.flash, readable, now, ok);
    }
  }

  /** A stopping press at rest, at UP, or on its way for too long. */
  predicate Settles(w: World, at: Sense, since: int) {
    !at.moving || Abs(at.pos - w.m.geo.up) <= STOP_ARRIVAL_TOL || Since(at.now, since) > STOP_TIMEOUT_MS
  }

  lemma HandledSettles(w: World, at: Sense)
    ensures w.m.run == Stopping ==>
              Handled(w, at) == if Settles(w, at, w.m.stopEntryMs) then w.(m := w.m.(run := Idle)) else w
  {
    hide Since;
  }

  lemma SettingsKeepStop(w: World, idx: int, ma: int)
    ensures var z := CurrentSet(ProfileSet(w, idx), ma);
            z.m.stopEntryMs == w.m.stopEntryMs && z.drive.target == w.drive.target && z.m.run == w.m.run
  {
  }

  lemma EditKeepsStop(m: Motion, e: Edit)
    ensures Edited(m, e).stopEntryMs == m.stopEntryMs
  {
    hide Compute;
  }

  /** One event in which a stopping press does not settle. */
  lemma NextStopping(y: System, ev: Event)
    requires Inv(y.w) && y.w.m.run == Stopping && !ev.Reboot?
    requires ev.Pump? ==> !Settles(y.w, ev.at, y.w.m.stopEntryMs)
    ensures var z := Next(y, ev).w;
            z.m.run == Stopping && z.m.stopEntryMs == y.w.m.stopEntryMs && z.drive.target == y.w.drive.target
  {
    hide Inv, Handled, Commanded, ResetCommand, Tick, SaveNow, Load, Edited, ProfileSet, CurrentSet, Settles;
    match ev
    case Pump(at, r, f, io) =>
      HandledSettles(y.w, at);
      StoppingRefuses(y.w, r, f);
      SettingsKeepStop(y.w, r.profile, r.currentMa);
      ResetLeavesIdle(y.(w := Commanded(y.w, r, f)), r, io);
    case Write(e, now, ok) =>
      EditKeepsProfiles(y.w.m, e);
      EditKeepsStop(y.w.m, e);
  }

  /** No pump iteration from `i` to `j` finds a press settled that began to stop at `since`. */
  ghost predicate NeverSettles(y: System, evs: seq<Event>, i: nat, j: nat, since: int)
    requires i <= j <= |evs|
  {
    forall k :: i <= k < j ==> !evs[k].Reboot? && (evs[k].Pump? ==> !Settles(After(y, evs, k).w, evs[k].at, since))
  }

  lemma {:induction false} StopLasts(y: System, evs: seq<Event>, i: nat, j: nat)
    requires i <= j <= |evs| && Inv(y.w)
    ensures var w, z := After(y, evs, i).w, After(y, evs, j).w;
            w.m.run == Stopping && NeverSettles(y, evs, i, j, w.m.stopEntryMs) ==>
              z.m.run == Stopping && z.m.stopEntryMs == w.m.stopEntryMs && z.drive.target == w.drive.target
    decreases j
  {
    hide Inv, Next, Settles, Ready;
    var w := After(y, evs, i).w;
    if i < j && w.m.run == Stopping && NeverSettles(y, evs, i, j, w.m.stopEntryMs) {
      StopLasts(y, evs, i, j - 1);
      AlwaysInv(y, evs, j - 1);
      NextStopping(After(y, evs, j - 1), evs[j - 1]);
    }
  }

  /** In any run a stopping press goes on stopping, whatever is asked of it and edited, until the
      first pump iteration that finds it at rest, at UP, or STOP_TIMEOUT_MS after it began to stop;
      that one leaves it idle, and with everything else as it was. */
  lemma {:induction false} StopSettles(y: System, evs: seq<Event>, i: nat, j: nat)
    requires i <= j < |evs| && Inv(y.w) && evs[j].Pump?
    ensures var w, z := After(y, evs, i).w, After(y, evs, j).w;
            w.m.run == Stopping && NeverSettles(y, evs, i, j, w.m.stopEntryMs) ==>
              && z.m.run == Stopping
              && Handled(z, evs[j].at)
              == if Settles(z, evs[j].at, w.m.stopEntryMs) then z.(m := z.m.(run := Idle)) else z
  {
    hide Inv, Next, Settles, Ready, Handled, After;
    if After(y, evs, i).w.m.run == Stopping && NeverSettles(y, evs, i, j, After(y, evs, i).w.m.stopEntryMs) {
      StopLasts(y, evs, i, j);
      HandledSettles(After(y, evs, j).w, evs[j].at);
    }
  }

  // ---------------------------------------------------------------------------
  //  Auto SG taking too long
  // ---------------------------------------------------------------------------

  /** In this event Auto SG has what it needs of a profile and goes on to the next. */
  predicate MovesOn(w: World, ev: Event) {
    ev.Pump? && w.m.auto.active && !ev.at.moving && A.Result(A.SHIPPED, w.sg, w.stroke).NextProfile?
  }

  /** The clock when Auto SG began with the profile it measures. */
  function ProfileBegan(y: System, evs: seq<Event>, n: nat): int
    requires n <= |evs|
  {
    hide Next, Ready, MovesOn;
    if n == 0 then y.w.saved.startMs
    else
      var w, ev := After(y, evs, n - 1).w, evs[n - 1];
      if !ev.Pump? then ProfileBegan(y, evs, n - 1)
      else if MovesOn(w, ev) then ev.at.now
      else if w.m.auto.active then ProfileBegan(y, evs, n - 1)
      else ev.f.now
  }

  lemma ArrivedSaved(w: World, now: int)
    ensures Inv(w) && w.m.auto.active ==>
              var z := Arrived(w, now);
              z.saved.startMs == if A.Result(A.SHIPPED, w.sg, w.stroke).NextProfile? then now else w.saved.startMs
  {
    hide MeasuredTrips, A.Stroke, A.StrokeDone, A.Result, FlipTarget, Since;
  }

  /** Auto SG goes on unless it takes too long, or a stroke ends it. */
  lemma HandledTimes(w: World, at: Sense)
    requires Inv(w) && w.m.auto.active
    ensures var z := Handled(w, at);
            && (z.m.auto.active <==> !TimedOut(w, at.now) && (at.moving || !AutoEnds(w)))
            && (z.m.auto.active ==>
                  && z.m.run == Running
                  && z.saved.startMs == if !at.moving && A.Result(A.SHIPPED, w.sg, w.stroke).NextProfile? then at.now
                                        else w.saved.startMs)
            && (TimedOut(w, at.now) ==> z.m.profiles.trips == w.m.profiles.trips && HeadsHome(z, at.now))
  {
    hide Inv, Arrived, Monitored, Stopped, TimedOut, MeasuredTrips, HeadsHome, AutoEnds, A.Result;
    AutoMeansRunning(w);
    HandledInv(w, at);
    AutoMeansRunning(Handled(w, at));
    if TimedOut(w, at.now) {
      StoppedHeadsHome(AutoEnded(w, false), at.now);
      StopKeepsTrips(AutoEnded(w, false), at.now);
      HomeIsOver(Handled(w, at), at.now);
    } else if !at.moving {
      ArrivedSaved(w, at.now);
      ArrivedAuto(w, at.now);
    } else {
      MonitoredAuto(w, at);
    }
  }

  lemma HomeIsOver(z: World, now: int)
    ensures HeadsHome(z, now) ==> !z.m.auto.active
  {
  }

  lemma StopKeepsTrips(w: World, now: int)
    ensures !w.m.auto.active ==> Stopped(w, now).m.profiles.trips == w.m.profiles.trips
  {
    hide MeasuredTrips;
  }

  lemma ArrivedAuto(w: World, now: int)
    ensures Inv(w) && w.m.auto.active ==> (Arrived(w, now).m.auto.active <==> !AutoEnds(w))
  {
    hide MeasuredTrips, A.Stroke, A.StrokeDone, A.Result, FlipTarget, Since;
  }

  lemma MonitoredAuto(w: World, at: Sense)
    ensures w.m.auto.active && w.m.run == Running ==>
              var z := Monitored(w, at); z.m.auto.active && z.saved == w.saved && z.m.run == Running
  {
    hide Blanked, InZone, InDecelWindow, HeadingDown, Add;
  }

  /** Auto SG, if a pass begins it, begins its clock. */
  predicate AutoClocked(w: World, f: Field) {
    w.m.auto.active ==> w.saved.startMs == f.now
  }

  lemma StartsClocked(w: World, f: Field, pos: int)
    ensures AutoClocked(w, f) ==>
              forall z :: z in {Started(w, f.now, pos), AutoStarted(w, f.now, pos), BatchStarted(w, f.now, pos)} ==>
                AutoClocked(z, f)
  {
    hide FirstTarget, JamDetectionSetUp, MeasuredTrips;
  }

  lemma SearchesClocked(w: World, f: Field, h: HomeRun, c: CalRun)
    ensures AutoClocked(w, f) ==>
              AutoClocked(Homed(w, h), f) && AutoClocked(CalibratedWorld(w, c), f) && AutoClocked(Stopped(w, f.now), f)
  {
    hide MeasuredGeometry, Recomputed, LastNudge, CalSucceeds, MeasuredTrips;
  }

  lemma {:induction false} TogglesClocked(w: World, n: nat, f: Field)
    requires AutoClocked(w, f)
    ensures AutoClocked(Toggled(w, n, f.now, f.posToggle), f)
    decreases n
  {
    hide Started, AutoStarted, BatchStarted, Homed, CalibratedWorld, Stopped, GateToggleRun, GateView, AutoClocked;
    if n > 0 && GateToggleRun(GateView(w.m)) == Nothing {
      StartsClocked(w, f, f.posToggle);
      SearchesClocked(w, f, f.home, f.cal);
      TogglesClocked(if CanStart(w.m.run) then Started(w, f.now, f.posToggle) else Stopped(w, f.now), n - 1, f);
    }
  }

  lemma SettingsClocked(w: World, f: Field, idx: int, ma: int)
    ensures AutoClocked(w, f) ==> AutoClocked(CurrentSet(ProfileSet(w, idx), ma), f)
  {
  }

  lemma CommandsClocked(w: World, r: Requests, f: Field)
    requires AutoClocked(w, f)
    ensures AutoClocked(Commanded(w, r, f), f)
  {
    hide CalibratedWorld, AutoStarted, Homed, Toggled, Started, Stopped, BatchStarted, ProfileSet, CurrentSet,
         GateView, GateBatchStart, GateStop, GateReturnHome, GateAutoSg, GateCalibrate, Ready, AutoClocked;
    SearchesClocked(w, f, f.home, f.cal);
    var a := CalibrateCommand(w, r, f);
    StartsClocked(a, f, f.posAuto);
    var b := AutoSgCommand(a, r, f);
    SearchesClocked(b, f, f.home, f.cal);
    var c := HomeCommand(b, r, f);
    TogglesClocked(c, r.toggles, f);
    var d := Toggled(c, r.toggles, f.now, f.posToggle);
    SearchesClocked(d, f, f.home, f.cal);
    var e := StopCommand(d, r, f);
    StartsClocked(e, f, f.posBatch);
    SettingsClocked(BatchCommand(e, r, f), f, r.profile, r.currentMa);
  }

  lemma ResetClocked(y: System, r: Requests, io: Io)
    ensures ResetCommand(y, r, io).w.m.auto == y.w.m.auto && ResetCommand(y, r, io).w.saved == y.w.saved
  {
    hide Recomputed, Written, Capture;
  }

  /** What one event does to the clock of Auto SG. */
  lemma NextTimes(y: System, ev: Event)
    requires Inv(y.w) && Next(y, ev).w.m.auto.active
    ensures ev.Pump? || (ev.Write? && y.w.m.auto.active)
    ensures Next(y, ev).w.saved.startMs
         == if !ev.Pump? then y.w.saved.startMs else if MovesOn(y.w, ev) then ev.at.now
            else if y.w.m.auto.active then y.w.saved.startMs else ev.f.now
  {
    hide Inv, Handled, Commanded, ResetCommand, Tick, SaveNow, Load, Edited, ProfileSet, CurrentSet, Stopped, TimedOut,
         AutoEnds, HeadsHome, A.Result;
    match ev
    case Pump(at, r, f, io) =>
      var a := Handled(y.w, at);
      HandledInv(y.w, at);
      ResetClocked(y.(w := Commanded(a, r, f)), r, io);
      if y.w.m.auto.active {
        HandledTimes(y.w, at);
        PassGivesBack(y, ev);
        if a.m.auto.active {
          RunningCommands(a, r, f);
          StoppedGivesBack(a, f.now);
          SettingsOf(if r.toggles > 0 || r.stop then Stopped(a, f.now) else a, r);
        } else {
          HandledGivesBack(y.w, at);
          StoppingRefuses(a, r, f);
          SettingsOf(a, r);
        }
      } else {
        HandledKeepsTrips(y.w, at);
        CommandsClocked(a, r, f);
      }
    case Write(e, now, ok) =>
      WriteKeepsAuto(y, ev);
    case Reboot(readable, now, ok) =>
      BootReady(y.s.flash, readable, now, ok);
  }

  /** In any run Auto SG keeps the time it began with the profile it measures. */
  lemma {:induction false} AlwaysTimed(y: System, evs: seq<Event>, n: nat)
    requires n <= |evs| && Inv(y.w)
    ensures After(y, evs, n).w.m.auto.active ==> After(y, evs, n).w.saved.startMs == ProfileBegan(y, evs, n)
  {
    hide Inv, Next, MovesOn, Ready;
    if n > 0 && After(y, evs, n).w.m.auto.active {
      AlwaysInv(y, evs, n - 1);
      NextTimes(After(y, evs, n - 1), evs[n - 1]);
      AlwaysTimed(y, evs, n - 1);
    }
  }

  /** In any run Auto SG survives a pump iteration exactly if it has measured the profile it is at
      for no longer than SG_AUTO_TIMEOUT_MS and no stroke that ends it was finished; taking longer
      stops the press with every trip as it was. */
  lemma {:induction false} AutoTimesOut(y: System, evs: seq<Event>, n: nat)
    requires n < |evs| && Inv(y.w) && evs[n].Pump?
    ensures var w, at := After(y, evs, n).w, evs[n].at;
            var late, z := Since(at.now, ProfileBegan(y, evs, n)) > SG_AUTO_TIMEOUT_MS, Handled(w, at);
            w.m.auto.active ==>
              && (z.m.auto.active <==> !late && (at.moving || !AutoEnds(w)))
              && (late ==> z.m.profiles.trips == w.m.profiles.trips && HeadsHome(z, at.now))
  {
    hide Inv, Next, Ready, Handled, After, ProfileBegan, AutoEnds, HeadsHome, Since;
    AlwaysInv(y, evs, n);
    AlwaysTimed(y, evs, n);
    if After(y, evs, n).w.m.auto.active {
      HandledTimes(After(y, evs, n).w, evs[n].at);
    }
  }
}
