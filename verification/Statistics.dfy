/** What the press keeps about its own life: how long its strokes took, the display counter, and
    how often it jammed, was calibrated and was updated. */
module Statistics {
  import opened Config
  import opened Conservation
  import opened Measuring
  import opened MotionCmd
  import opened MotionState
  import opened MotorFsm
  import opened Numbers
  import opened Runs
  import opened SettingsBlob
  import opened SettingsStore
  import opened StallMonitor
  import opened Strokes
  import opened StrokeTimes
  import opened Supervisor
  import A = AutoSg
  import Endpoints

  // ---------------------------------------------------------------------------
  //  What one event adds
  // ---------------------------------------------------------------------------

  datatype Kind = Jammed | Calibrated | Updated

  /** A reading jams the press; a calibration is carried out and succeeds; an update is done. */
  predicate Happens(k: Kind, w: World, ev: Event) {
    match k
    case Jammed => ev.Pump? && w.m.run == Running && Handled(w, ev.at).m.run == Stalled
    case Calibrated =>
      ev.Pump? && ev.r.calibrate && GateCalibrate(GateView(Handled(w, ev.at).m)) == Nothing && CalSucceeds(ev.f.cal)
    case Updated => ev.Write? && ev.e.OtaDone?
  }

  function CountOf(h: Lifetime, k: Kind): int {
    match k
    case Jammed => h.stallCount
    case Calibrated => h.calibrationCount
    case Updated => h.otaCount
  }

  function Longer(a: int, b: int): int {
    if a < b then b else a
  }

  /** `h` with a stroke of `strokeMs` more. */
  function Timed(h: Lifetime, strokeMs: nat): Lifetime {
    h.(totalCycleTimeMs := (h.totalCycleTimeMs + strokeMs) % U32,
       longestCycleMs := Longer(h.longestCycleMs, strokeMs))
  }

  lemma StopKeepsHealth(w: World, now: int)
    ensures Stopped(w, now).m.health == w.m.health && Stopped(w, now).m.counter == w.m.counter
  {
    hide MeasuredTrips;
  }

  lemma TurnKeepsHealth(w: World, now: int)
    ensures Turned(w, now).m.health == w.m.health && Turned(w, now).m.counter == w.m.counter
  {
    hide Endpoints.FlipTarget;
  }

  lemma AutoKeepsHealth(w: World, now: int)
    ensures AutoStroke(w, now).m.health == w.m.health && AutoStroke(w, now).m.counter == w.m.counter
  {
    hide A.StrokeDone, A.Result, A.Stroke, MeasuredTrips;
  }

  lemma ArrivedHealth(w: World, now: int)
    ensures var n := Arrived(w, now).m;
            && n.health == (if Counts(w.m) then Timed(w.m.health, Since(now, w.m.lastChangeMs)) else w.m.health)
            && n.counter == if Counts(w.m) && w.m.counter < COUNTER_MAX then w.m.counter + 1 else w.m.counter
  {
    hide Stopped, Turned, AutoStroke, AutoEnds, HeadingDown, Since;
    var t := Since(now, w.m.lastChangeMs);
    var a := if Counts(w.m) then w.(m := StrokeCounted(w.m, t)) else w;
    StopKeepsHealth(a, now);
    TurnKeepsHealth(StrokeReset(a), now);
    AutoKeepsHealth(a, now);
    var b := StrokeReset(AutoStroke(a, now));
    StopKeepsHealth(b, now);
    TurnKeepsHealth(b, now);
  }

  lemma MonitoredHealth(w: World, at: Sense)
    ensures w.m.run == Running ==>
              var n := Monitored(w, at).m;
              && n.counter == w.m.counter
              && n.health == if n.run == Stalled then w.m.health.(stallCount := (w.m.health.stallCount + 1) % U16)
                             else w.m.health
  {
    hide Blanked, InZone, InDecelWindow, HeadingDown, Fires, Count, Add;
  }

  lemma HandledHealth(w: World, at: Sense)
    requires Inv(w)
    ensures var h, n := w.m.health, Handled(w, at).m;
            var done := w.m.run == Running && !at.moving && Counts(w.m);
            && n.counter == (if done && w.m.counter < COUNTER_MAX then w.m.counter + 1 else w.m.counter)
            && n.health == if done then Timed(h, Since(at.now, w.m.lastChangeMs))
                           else if w.m.run == Running && n.run == Stalled
                           then h.(stallCount := (h.stallCount + 1) % U16) else h
  {
    hide Inv, Arrived, Monitored, Stopped, Since, NearPos, HeadingDown, MeasuredTrips;
    if w.m.run == Running {
      if TimedOut(w, at.now) {
        StopKeepsHealth(AutoEnded(w, false), at.now);
        StopsRunning(AutoEnded(w, false), at.now);
      } else if !at.moving {
        ArrivedHealth(w, at.now);
        ArrivedRuns(w, at.now);
      } else {
        MonitoredHealth(w, at);
      }
    }
  }

  /** No finished stroke stalls the press. */
  lemma ArrivedRuns(w: World, now: int)
    ensures Inv(w) && w.m.run == Running ==> Arrived(w, now).m.run != Stalled
  {
    hide Inv, HeadingDown, Endpoints.FlipTarget, MeasuredTrips, A.StrokeDone, A.Result, A.Stroke, Add, Since;
  }

  /** Apart from the calibrations, commands leave every one of them alone. */
  lemma StartKeepsHealth(w: World, now: int, pos: int)
    ensures forall z :: z in {Started(w, now, pos), AutoStarted(w, now, pos), BatchStarted(w, now, pos)} ==>
              z.m.health == w.m.health && z.m.counter == w.m.counter
  {
    hide FirstTarget, JamDetectionSetUp, MeasuredTrips;
  }

  lemma {:induction false} ToggledHealth(w: World, n: nat, now: int, pos: int)
    ensures Toggled(w, n, now, pos).m.health == w.m.health && Toggled(w, n, now, pos).m.counter == w.m.counter
    decreases n
  {
    hide Started, AutoStarted, BatchStarted, Stopped, GateToggleRun, GateView;
    if n > 0 && GateToggleRun(GateView(w.m)) == Nothing {
      StartKeepsHealth(w, now, pos);
      StopKeepsHealth(w, now);
      ToggledHealth(if CanStart(w.m.run) then Started(w, now, pos) else Stopped(w, now), n - 1, now, pos);
    }
  }

  lemma SearchHealth(w: World, h: HomeRun, c: CalRun)
    ensures Homed(w, h).m.health == w.m.health && Homed(w, h).m.counter == w.m.counter
    ensures var n := CalibratedWorld(w, c).m;
            && n.counter == w.m.counter
            && n.health == if w.m.run == Idle && CalSucceeds(c)
                           then w.m.health.(calibrationCount := (w.m.health.calibrationCount + 1) % U16)
                           else w.m.health
  {
    hide MeasuredGeometry, Recomputed, LastNudge, CalSucceeds;
  }

  lemma SettingsKeepHealth(w: World, idx: int, ma: int)
    ensures CurrentSet(ProfileSet(w, idx), ma).m.health == w.m.health
    ensures CurrentSet(ProfileSet(w, idx), ma).m.counter == w.m.counter
  {
  }

  lemma CommandedHealth(w: World, r: Requests, f: Field)
    ensures var n := Commanded(w, r, f).m;
            && n.counter == w.m.counter
            && n.health == if r.calibrate && GateCalibrate(GateView(w.m)) == Nothing && CalSucceeds(f.cal)
                           then w.m.health.(calibrationCount := (w.m.health.calibrationCount + 1) % U16)
                           else w.m.health
  {
    hide CalibratedWorld, AutoStarted, Homed, Toggled, Started, Stopped, BatchStarted, ProfileSet, CurrentSet,
         GateView, GateBatchStart, GateStop, GateReturnHome, GateAutoSg, GateCalibrate, Ready, CalSucceeds;
    SearchHealth(w, f.home, f.cal);
    CalibratesIdle(w);
    var a := CalibrateCommand(w, r, f);
    StartKeepsHealth(a, f.now, f.posAuto);
    var b := AutoSgCommand(a, r, f);
    SearchHealth(b, f.home, f.cal);
    var c := HomeCommand(b, r, f);
    ToggledHealth(c, r.toggles, f.now, f.posToggle);
    var d := Toggled(c, r.toggles, f.now, f.posToggle);
    StopKeepsHealth(d, f.now);
    var e := StopCommand(d, r, f);
    StartKeepsHealth(e, f.now, f.posBatch);
    SettingsKeepHealth(BatchCommand(e, r, f), r.profile, r.currentMa);
  }

  lemma CalibratesIdle(w: World)
    ensures GateCalibrate(GateView(w.m)) == Nothing <==> w.m.run == Idle
  {
    hide JamDetectionSetUp;
  }

  lemma EditHealth(m: Motion, e: Edit)
    ensures Edited(m, e).health
         == if e.OtaDone? then m.health.(otaCount := (m.health.otaCount + 1) % U16) else m.health
    ensures Edited(m, e).counter == if e.CounterReset? then 0 else m.counter
  {
    hide Endpoints.Compute;
  }

  /** Every event adds to each count what happened in it, and nothing else. */
  lemma NextHealth(y: System, ev: Event)
    requires Inv(y.w) && !Resets(y.w, ev)
    ensures var m, n := y.w.m, Next(y, ev).w.m;
            && (forall k :: CountOf(n.health, k)
                  == if Happens(k, y.w, ev) then (CountOf(m.health, k) + 1) % U16 else CountOf(m.health, k))
            && (if CompletesStroke(y.w, ev) then
                  var t := Since(ev.at.now, m.lastChangeMs);
                  && n.health.totalCycleTimeMs == (m.health.totalCycleTimeMs + t) % U32
                  && n.health.longestCycleMs == Longer(m.health.longestCycleMs, t)
                  && n.counter == if m.counter < COUNTER_MAX then m.counter + 1 else m.counter
                else
                  && n.health.totalCycleTimeMs == m.health.totalCycleTimeMs
                  && n.health.longestCycleMs == m.health.longestCycleMs
                  && n.counter == if ev.Write? && ev.e.CounterReset? then 0 else m.counter)
  {
    hide Inv, Handled, Commanded, JamDetectionSetUp, GateCalibrate, Counts, Tick, SaveNow, Load, Since,
         CalSucceeds, Edited;
    match ev
    case Pump(at, r, f, io) =>
      HandledHealth(y.w, at);
      if y.w.m.run == Running && !at.moving {
        CountedOnce(y.w, at);
      }
      CommandedHealth(Handled(y.w, at), r, f);
    case Write(e, now, ok) =>
      EditHealth(y.w.m, e);
  }

  /** A stroke that is completed does not jam. */
  lemma CountedOnce(w: World, at: Sense)
    requires Inv(w) && w.m.run == Running && !at.moving
    ensures Handled(w, at).m.run != Stalled
  {
    hide Inv, Arrived, Stopped, Since, MeasuredTrips;
    if TimedOut(w, at.now) {
      StopsRunning(AutoEnded(w, false), at.now);
    } else {
      ArrivedRuns(w, at.now);
    }
  }

  // ---------------------------------------------------------------------------
  //  Over whole runs
  // ---------------------------------------------------------------------------

  /** How often it happens in the events from `i` to `j`. */
  function Happened(k: Kind, y: System, evs: seq<Event>, i: nat, j: nat): nat
    requires i <= j <= |evs|
    decreases j
  {
    hide Next, Ready;
    if i == j then 0
    else Happened(k, y, evs, i, j - 1) + if Happens(k, After(y, evs, j - 1).w, evs[j - 1]) then 1 else 0
  }

  /** How long the stroke completed in event `k` took, from the turn or the start that began it. */
  function StrokeMs(y: System, evs: seq<Event>, k: nat): nat
    requires k < |evs| && evs[k].Pump?
  {
    Since(evs[k].at.now, StrokeBegan(y, evs, k))
  }

  /** The sum and the maximum of these times. */
  function MsIn(y: System, evs: seq<Event>, i: nat, j: nat): nat
    requires i <= j <= |evs|
    decreases j
  {
    hide Next, Ready, StrokeMs;
    if i == j then 0
    else
      MsIn(y, evs, i, j - 1)
      + if CompletesStroke(After(y, evs, j - 1).w, evs[j - 1]) then StrokeMs(y, evs, j - 1) else 0
  }

  function LongestIn(y: System, evs: seq<Event>, i: nat, j: nat): nat
    requires i <= j <= |evs|
    decreases j
  {
    hide Next, Ready, StrokeMs;
    if i == j then 0
    else if CompletesStroke(After(y, evs, j - 1).w, evs[j - 1])
    then Longer(LongestIn(y, evs, i, j - 1), StrokeMs(y, evs, j - 1))
    else LongestIn(y, evs, i, j - 1)
  }

  ghost predicate NothingReset(y: System, evs: seq<Event>, i: nat, j: nat)
    requires i <= j <= |evs|
  {
    forall k :: i <= k < j ==> !Resets(After(y, evs, k).w, evs[k])
  }

  /** The counters fit their widths. */
  predicate Fits(h: Lifetime) {
    && 0 <= h.totalCycleTimeMs < U32 && 0 <= h.longestCycleMs && 0 <= h.stallCount < U16
    && 0 <= h.calibrationCount < U16 && 0 <= h.otaCount < U16
  }

  lemma SumWraps16(a: nat, d: nat)
    ensures (a % U16 + d) % U16 == (a + d) % U16
  {
    Shifted16(a % U16 + d, a / U16);
  }

  lemma Shifted16(x: nat, q: nat)
    ensures (x + U16 * q) % U16 == x % U16
  {
  }

  lemma SumWraps32(a: nat, d: nat)
    ensures (a % U32 + d) % U32 == (a + d) % U32
  {
    Shifted32(a % U32 + d, a / U32);
  }

  lemma Shifted32(x: nat, q: nat)
    ensures (x + U32 * q) % U32 == x % U32
  {
  }

  /** The counts of jams, calibrations and updates grow by exactly those that happen. */
  lemma {:induction false} CountsConserved(k: Kind, y: System, evs: seq<Event>, i: nat, j: nat)
    requires i <= j <= |evs| && Inv(y.w)
    ensures var a := After(y, evs, i).w.m.health;
            Fits(a) && NothingReset(y, evs, i, j) ==>
              CountOf(After(y, evs, j).w.m.health, k) == (CountOf(a, k) + Happened(k, y, evs, i, j)) % U16
    decreases j
  {
    hide Inv, Next, Resets, CompletesStroke, Ready, Happens;
    if i < j && Fits(After(y, evs, i).w.m.health) && NothingReset(y, evs, i, j) {
      CountsConserved(k, y, evs, i, j - 1);
      AlwaysInv(y, evs, j - 1);
      NextHealth(After(y, evs, j - 1), evs[j - 1]);
      SumWraps16(CountOf(After(y, evs, i).w.m.health, k) + Happened(k, y, evs, i, j - 1), 1);
    }
  }

  /** The total cycle time grows by the time of every stroke completed, each from the turn or start
      that began it to its arrival; the longest is the longest of them. */
  lemma {:induction false} TimesConserved(y: System, evs: seq<Event>, i: nat, j: nat)
    requires i <= j <= |evs| && Inv(y.w)
    ensures var a, b := After(y, evs, i).w.m.health, After(y, evs, j).w.m.health;
            Fits(a) && NothingReset(y, evs, i, j) ==>
              && b.totalCycleTimeMs == (a.totalCycleTimeMs + MsIn(y, evs, i, j)) % U32
              && b.longestCycleMs == Longer(a.longestCycleMs, LongestIn(y, evs, i, j))
    decreases j
  {
    hide Inv, Next, Resets, CompletesStroke, Ready, Happens, StrokeBegan, Since;
    if i < j && Fits(After(y, evs, i).w.m.health) && NothingReset(y, evs, i, j) {
      TimesConserved(y, evs, i, j - 1);
      AlwaysInv(y, evs, j - 1);
      NextHealth(After(y, evs, j - 1), evs[j - 1]);
      if CompletesStroke(After(y, evs, j - 1).w, evs[j - 1]) {
        CompletesRunning(After(y, evs, j - 1).w, evs[j - 1]);
        AlwaysClocked(y, evs, j - 1);
        SumWraps32(After(y, evs, i).w.m.health.totalCycleTimeMs + MsIn(y, evs, i, j - 1), StrokeMs(y, evs, j - 1));
      }
    }
  }

  lemma CompletesRunning(w: World, ev: Event)
    ensures CompletesStroke(w, ev) ==> ev.Pump? && w.m.run == Running
  {
  }

  /** The display counter counts the same strokes, up to where it stops. */
  lemma {:induction false} DisplayCounts(y: System, evs: seq<Event>, i: nat, j: nat)
    requires i <= j <= |evs| && Inv(y.w)
    ensures var a, b := After(y, evs, i).w.m.counter, After(y, evs, j).w.m.counter;
            a <= COUNTER_MAX && NothingReset(y, evs, i, j)
            && (forall k :: i <= k < j ==> !(evs[k].Write? && evs[k].e.CounterReset?)) ==>
              b == Clamp(a + StrokesIn(y, evs, i, j), a, COUNTER_MAX)
    decreases j
  {
    hide Inv, Next, Resets, CompletesStroke, Ready, Happens, Since;
    if i < j && NothingReset(y, evs, i, j) {
      DisplayCounts(y, evs, i, j - 1);
      AlwaysInv(y, evs, j - 1);
      NextHealth(After(y, evs, j - 1), evs[j - 1]);
    }
  }
}
