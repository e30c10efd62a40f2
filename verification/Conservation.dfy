/** Strokes are conserved: over any run the lifetime count grows by exactly the completed
    DOWN strokes outside Auto SG, and a batch is exactly as many strokes as its target. */
module Conservation {
  import opened Config
  import opened Measuring
  import opened MotionCmd
  import opened MotionState
  import opened MotorFsm
  import opened Numbers
  import opened Runs
  import opened SettingsBlob
  import opened SettingsStore
  import opened StallMonitor
  import opened Supervisor
  import A = AutoSg

  /** In this event a DOWN stroke of an ordinary run is completed. */
  predicate CompletesStroke(w: World, ev: Event) {
    ev.Pump? && w.m.run == Running && !ev.at.moving && Counts(w.m)
  }

  /** In this event the settings are reset, or the machine is. */
  predicate Resets(w: World, ev: Event) {
    || ev.Reboot?
    || (ev.Pump? && ev.r.reset && Commanded(Handled(w, ev.at), ev.r, ev.f).m.run == Idle)
  }

  function StrokesIn(y: System, evs: seq<Event>, i: nat, j: nat): nat
    requires i <= j <= |evs|
    decreases j
  {
    hide Next, Ready;
    if i == j then 0
    else StrokesIn(y, evs, i, j - 1) + if CompletesStroke(After(y, evs, j - 1).w, evs[j - 1]) then 1 else 0
  }

  lemma StopKeepsCounts(w: World, now: int)
    ensures var n := Stopped(w, now).m;
            && n.lifetimeCycles == w.m.lifetimeCycles && n.counter == w.m.counter
            && n.batch == (if w.m.run == Running then w.m.batch.(active := false) else w.m.batch)
  {
    hide MeasuredTrips;
  }

  lemma TurnKeepsCounts(w: World, now: int)
    ensures var n := Turned(w, now).m;
            n.lifetimeCycles == w.m.lifetimeCycles && n.counter == w.m.counter && n.batch == w.m.batch
  {
    hide Endpoints.FlipTarget;
  }

  lemma AutoKeepsCounts(w: World, now: int)
    ensures var n := AutoStroke(w, now).m;
            && n.lifetimeCycles == w.m.lifetimeCycles && n.counter == w.m.counter && n.batch == w.m.batch
            && n.run == w.m.run
  {
    hide A.StrokeDone, A.Result, A.Stroke, MeasuredTrips;
  }

  /** A completed stroke counts once in each counter; nothing else does. */
  lemma ArrivedCounts(w: World, now: int)
    requires Inv(w) && w.m.run == Running
    ensures var n := Arrived(w, now).m;
            && n.lifetimeCycles == (if Counts(w.m) then (w.m.lifetimeCycles + 1) % U32 else w.m.lifetimeCycles)
            && n.batch == (if !Counts(w.m) || !w.m.batch.active then w.m.batch.(active := n.batch.active)
                           else BatchCounted(w.m.batch))
            && (w.m.batch.active ==> n.batch.active == !CompletesBatch(w.m) && !w.m.auto.active)
            && (!w.m.batch.active ==> !n.batch.active)
  {
    hide Stopped, Turned, AutoStroke, AutoEnds, HeadingDown, Since;
    var t := Since(now, w.m.lastChangeMs);
    CountedKeeps(w.m, t);
    var a := if Counts(w.m) then w.(m := StrokeCounted(w.m, t)) else w;
    StopKeepsCounts(a, now);
    TurnKeepsCounts(StrokeReset(a), now);
    if a.m.auto.active {
      AutoKeepsCounts(a, now);
      var b := StrokeReset(AutoStroke(a, now));
      StopKeepsCounts(b, now);
      TurnKeepsCounts(b, now);
    }
  }

  /** Apart from its being active, a batch changes only when it is armed; the lifetime count
      does not change at all. */
  predicate SameCounts(m: Motion, n: Motion) {
    && n.lifetimeCycles == m.lifetimeCycles && n.batch == m.batch.(active := n.batch.active)
    && (n.batch.active ==> m.batch.active)
  }

  lemma MonitoredCounts(w: World, at: Sense)
    ensures SameCounts(w.m, Monitored(w, at).m)
    ensures Monitored(w, at).m.run != Stalled ==> Monitored(w, at).m.batch == w.m.batch
  {
    hide Blanked, InZone, InDecelWindow, HeadingDown, Fires, Count, Add;
  }

  lemma HandledCounts(w: World, at: Sense)
    requires Inv(w)
    ensures var n := Handled(w, at).m;
            if w.m.run == Running && !at.moving && Counts(w.m) then
              && n.lifetimeCycles == (w.m.lifetimeCycles + 1) % U32
              && (w.m.batch.active ==> n.batch == BatchCounted(w.m.batch))
              && (!w.m.batch.active ==> n.batch == w.m.batch)
            else SameCounts(w.m, n)
  {
    hide Arrived, Monitored, Stopped, Since, NearPos, HeadingDown, MeasuredTrips;
    if w.m.run == Running {
      if TimedOut(w, at.now) {
        StopKeepsCounts(AutoEnded(w, false), at.now);
      } else if !at.moving {
        ArrivedCounts(w, at.now);
      } else {
        MonitoredCounts(w, at);
      }
    }
  }

  lemma StartKeepsCounts(w: World, now: int, pos: int)
    ensures SameCounts(w.m, Started(w, now, pos).m) && SameCounts(w.m, AutoStarted(w, now, pos).m)
    ensures Started(w, now, pos).m.batch == w.m.batch && AutoStarted(w, now, pos).m.batch == w.m.batch
  {
    hide FirstTarget, JamDetectionSetUp, MeasuredTrips;
  }

  lemma SearchKeepsCounts(w: World, h: HomeRun, c: CalRun)
    ensures SameCounts(w.m, Homed(w, h).m) && SameCounts(w.m, CalibratedWorld(w, c).m)
  {
    hide MeasuredGeometry, Recomputed, LastNudge, CalSucceeds;
  }

  lemma {:induction false} ToggledCounts(w: World, n: nat, now: int, pos: int)
    ensures SameCounts(w.m, Toggled(w, n, now, pos).m)
    decreases n
  {
    hide Started, Stopped, GateToggleRun, GateView;
    if n > 0 && GateToggleRun(GateView(w.m)) == Nothing {
      StartKeepsCounts(w, now, pos);
      StopKeepsCounts(w, now);
      ToggledCounts(if CanStart(w.m.run) then Started(w, now, pos) else Stopped(w, now), n - 1, now, pos);
    }
  }

  lemma SettingsKeepCounts(w: World, idx: int, ma: int)
    ensures CurrentSet(ProfileSet(w, idx), ma).m.lifetimeCycles == w.m.lifetimeCycles
    ensures CurrentSet(ProfileSet(w, idx), ma).m.batch == w.m.batch
  {
  }

  /** What the batch command of a pass meets. */
  function BeforeBatch(w: World, r: Requests, f: Field): World {
    hide *;
    var a := HomeCommand(AutoSgCommand(CalibrateCommand(w, r, f), r, f), r, f);
    StopCommand(Toggled(a, r.toggles, f.now, f.posToggle), r, f)
  }

  /** The pass asks for a batch, and the gate lets it through. */
  predicate ArmsBatch(w: World, r: Requests, f: Field) {
    r.batchStart && GateBatchStart(GateView(BeforeBatch(w, r, f).m)) == Nothing
  }

  /** Commands count no stroke; a batch they arm starts from zero, with a target. */
  lemma CommandedCounts(w: World, r: Requests, f: Field)
    requires Inv(w)
    ensures var n := Commanded(w, r, f).m;
            && n.lifetimeCycles == w.m.lifetimeCycles && n.batch.target == w.m.batch.target
            && (SameCounts(w.m, n)
                || (ArmsBatch(w, r, f) && n.batch.active && n.batch.count == 0 < n.batch.target))
  {
    hide Inv, CalibratedWorld, AutoStarted, Homed, Toggled, Stopped, Started, ProfileSet, CurrentSet, GateView,
         GateStart, GateStop, GateReturnHome, GateAutoSg, GateCalibrate, GateBatchStart, BatchCommand, Ready;
    SearchKeepsCounts(w, f.home, f.cal);
    CalibratedInv(w, f.cal);
    var a := CalibrateCommand(w, r, f);
    StartKeepsCounts(a, f.now, f.posAuto);
    AutoStartedInv(a, f.now, f.posAuto);
    var b := AutoSgCommand(a, r, f);
    SearchKeepsCounts(b, f.home, f.cal);
    HomedInv(b, f.home);
    var c := HomeCommand(b, r, f);
    ToggledCounts(c, r.toggles, f.now, f.posToggle);
    ToggledInv(c, r.toggles, f.now, f.posToggle);
    var d := Toggled(c, r.toggles, f.now, f.posToggle);
    StopKeepsCounts(d, f.now);
    StoppedInv(d, f.now);
    var e := StopCommand(d, r, f);
    StartKeepsCounts(e, f.now, f.posBatch);
    BatchArms(w, e, r, f);
    SettingsKeepCounts(BatchCommand(e, r, f), r.profile, r.currentMa);
  }

  lemma BatchArms(w: World, e: World, r: Requests, f: Field)
    requires Inv(w) && Inv(e) && SameCounts(w.m, e.m)
    ensures var n := BatchCommand(e, r, f).m;
            && n.lifetimeCycles == w.m.lifetimeCycles && n.batch.target == w.m.batch.target
            && (SameCounts(w.m, n)
                || (r.batchStart && GateBatchStart(GateView(e.m)) == Nothing && n.batch.active
                    && n.batch.count == 0 < n.batch.target))
  {
    hide JamDetectionSetUp, FirstTarget, StallReset, StrokeReset;
    StartKeepsCounts(e, f.now, f.posBatch);
  }

  // ---------------------------------------------------------------------------
  //  Over whole runs
  // ---------------------------------------------------------------------------

  lemma NextCounts(y: System, ev: Event)
    requires Inv(y.w) && !Resets(y.w, ev)
    ensures Next(y, ev).w.m.lifetimeCycles
         == (if CompletesStroke(y.w, ev) then (y.w.m.lifetimeCycles + 1) % U32 else y.w.m.lifetimeCycles)
  {
    hide Inv, Handled, Commanded, JamDetectionSetUp, Counts, Tick, SaveNow, Load;
    match ev
    case Pump(at, r, f, io) =>
      HandledCounts(y.w, at);
      HandledInv(y.w, at);
      CommandedCounts(Handled(y.w, at), r, f);
    case Write(e, now, ok) =>
  }

  /** Over any run in which nothing is reset, the lifetime count grows by exactly the strokes
      completed in it, modulo its width. */
  lemma {:induction false} StrokesConserved(y: System, evs: seq<Event>, i: nat, j: nat)
    requires i <= j <= |evs| && Inv(y.w)
    ensures var a, b := After(y, evs, i).w.m.lifetimeCycles, After(y, evs, j).w.m.lifetimeCycles;
            0 <= a < U32 && (forall k :: i <= k < j ==> !Resets(After(y, evs, k).w, evs[k])) ==>
              b == (a + StrokesIn(y, evs, i, j)) % U32
    decreases j
  {
    hide Inv, Next, Resets, CompletesStroke, Ready;
    if i < j {
      StrokesConserved(y, evs, i, j - 1);
      AlwaysInv(y, evs, j - 1);
      if !Resets(After(y, evs, j - 1).w, evs[j - 1]) {
        NextCounts(After(y, evs, j - 1), evs[j - 1]);
      }
      if After(y, evs, i).w.m.lifetimeCycles >= 0 {
        OneMore(After(y, evs, i).w.m.lifetimeCycles + StrokesIn(y, evs, i, j - 1));
      }
    }
  }

  lemma OneMore(n: nat)
    ensures (n % U32 + 1) % U32 == (n + 1) % U32
  {
  }

  /** Nobody changes the batch's target, clears it, or arms another one: a request for one that
      the gate refuses, as on any press that is running, does no harm. */
  predicate KeepsBatch(w: World, ev: Event) {
    match ev
    case Pump(at, r, f, _) => !ArmsBatch(Handled(w, at), r, f)
    case Write(e, _, _) => !e.BatchTarget? && !e.BatchClear?
    case Reboot(_, _, _) => false
  }

  /** No request arms another batch on a press that is running or stopping: only a jam and a home
      in the same pass let one through. */
  lemma RunningArmsNothing(w: World, r: Requests, f: Field)
    requires Inv(w) && w.m.run in {Running, Stopping}
    ensures !ArmsBatch(w, r, f)
  {
    hide Inv, CalibratedWorld, AutoStarted, Homed, Started, Stopped, JamDetectionSetUp;
    if w.m.run == Running {
      if r.toggles > 0 {
        RunningToggles(w, r.toggles, f.now, f.posToggle);
      } else {
        StopsFromRunning(w, f.now);
      }
    }
  }

  lemma ResetKeepsBatch(y: System, r: Requests, io: Io)
    ensures ResetCommand(y, r, io).w.m.batch == y.w.m.batch
  {
    hide Recomputed, Written, Capture;
  }

  /** One event on a press in the middle of a batch: a completed stroke counts once, and ends
      the batch exactly when it reaches the target. */
  lemma BatchStep(y: System, ev: Event)
    requires Inv(y.w) && y.w.m.batch.active && 0 <= y.w.m.batch.count < y.w.m.batch.target && KeepsBatch(y.w, ev)
    ensures var b, n := y.w.m.batch, Next(y, ev).w.m.batch;
            && n.target == b.target && n.count == b.count + (if CompletesStroke(y.w, ev) then 1 else 0)
            && n.count <= n.target && (n.active ==> n.count < n.target)
  {
    hide Inv, Handled, Commanded, ResetCommand, Counts, Tick, SaveNow, Load;
    BatchMeansRunning(y.w);
    match ev
    case Pump(at, r, f, io) =>
      HandledCounts(y.w, at);
      HandledInv(y.w, at);
      var a := Handled(y.w, at);
      CommandedCounts(a, r, f);
      ResetKeepsBatch(y.(w := Commanded(a, r, f)), r, io);
    case Write(e, now, ok) =>
  }

  lemma BatchMeansRunning(w: World)
    requires Inv(w) && w.m.batch.active
    ensures w.m.run == Running
  {
  }

  /** The batch is active up to event `j`, and nobody interferes with it. */
  ghost predicate BatchLasts(y: System, evs: seq<Event>, i: nat, j: nat)
    requires i <= j <= |evs|
  {
    && 0 <= After(y, evs, i).w.m.batch.count < After(y, evs, i).w.m.batch.target
    && forall k :: i <= k < j ==> KeepsBatch(After(y, evs, k).w, evs[k]) && After(y, evs, k).w.m.batch.active
  }

  /** Reaching the target ends the batch, and stops the press in the same iteration. */
  lemma TargetStops(w: World, at: Sense)
    requires Inv(w) && w.m.batch.active && !at.moving && Counts(w.m) && w.m.batch.count + 1 >= w.m.batch.target
    ensures var n := Handled(w, at).m; n.run == Stopping && !n.batch.active && n.currentTarget == w.m.geo.up
  {
    hide HeadingDown, Since, MeasuredTrips;
  }

  /** In this event the last stroke of a batch is completed. */
  predicate EndsBatch(w: World, ev: Event) {
    CompletesStroke(w, ev) && CompletesBatch(w.m)
  }

  lemma EndingStep(y: System, ev: Event)
    requires Inv(y.w) && EndsBatch(y.w, ev)
    ensures Next(y, ev).w.m.run == Stopping && !Next(y, ev).w.m.batch.active
  {
    hide Inv, Handled, Commanded, Counts, Tick;
    TargetStops(y.w, ev.at);
    var a := Handled(y.w, ev.at);
    StoppingRefuses(a, ev.r, ev.f);
    SettingsStopOn(a, ev.r.profile, ev.r.currentMa);
  }

  lemma SettingsStopOn(w: World, idx: int, ma: int)
    ensures var n := CurrentSet(ProfileSet(w, idx), ma); n.m.run == w.m.run && n.m.batch == w.m.batch
  {
  }

  /** While a batch lasts its count is exactly the strokes completed since. The stroke that
      completes it brings that to exactly its target, ends it and stops the press; one that is
      still active has not reached its target. */
  lemma {:induction false} BatchExact(y: System, evs: seq<Event>, i: nat, j: nat)
    requires i <= j <= |evs| && Inv(y.w)
    ensures var b, n := After(y, evs, i).w.m.batch, After(y, evs, j).w.m.batch;
            BatchLasts(y, evs, i, j) ==>
              && n.target == b.target && n.count == b.count + StrokesIn(y, evs, i, j) <= n.target
              && (n.active || i == j ==> n.count < n.target)
              && (i < j && EndsBatch(After(y, evs, j - 1).w, evs[j - 1]) ==>
                    && n.count == n.target && b.count + StrokesIn(y, evs, i, j) == b.target
                    && !n.active && After(y, evs, j).w.m.run == Stopping)
    decreases j
  {
    hide Inv, Next, CompletesStroke, CompletesBatch, Ready, KeepsBatch, Counts;
    if i < j && BatchLasts(y, evs, i, j) {
      BatchExact(y, evs, i, j - 1);
      AlwaysInv(y, evs, j - 1);
      BatchStep(After(y, evs, j - 1), evs[j - 1]);
      if EndsBatch(After(y, evs, j - 1).w, evs[j - 1]) {
        LastStroke(After(y, evs, j - 1).w);
        EndingStep(After(y, evs, j - 1), evs[j - 1]);
      }
    }
  }

  lemma LastStroke(w: World)
    requires CompletesBatch(w.m)
    ensures w.m.batch.count + 1 >= w.m.batch.target
  {
    hide Counts;
  }
}
