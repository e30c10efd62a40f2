/** Where the endpoints are: what an offset edit moves and when its reverse undoes it, where a home
    and a calibration leave the press, and what a pass with a single request does. */
module Referencing {
  import opened Config
  import opened Endpoints
  import opened MotionCmd
  import opened MotionState
  import opened MotorFsm
  import opened Numbers
  import opened Runs
  import opened SettingsBlob
  import opened SettingsStore
  import opened StallMonitor
  import opened Supervisor
  import A = AutoSg
  import S = StallSearch

  // ---------------------------------------------------------------------------
  //  Offset edits
  // ---------------------------------------------------------------------------

  /** A calibrated machine whose effective endpoints are the raw ones moved by its offsets. */
  predicate Computed(g: Geometry) {
    && g.calibrated && g.up == g.rawUp + g.upOffset && g.down == g.rawDown + g.downOffset && Apart(g)
    && OFFSETS.Allows(g.upOffset) && OFFSETS.Allows(g.downOffset)
  }

  /** There is room for an endpoint to move by `d`: within the offset's limits, and up to the guard. */
  predicate RoomAtUp(g: Geometry, d: int) {
    OFFSETS.Allows(g.upOffset + d) && g.up + d + ENDPOINT_GUARD <= g.down
  }

  predicate RoomAtDown(g: Geometry, d: int) {
    OFFSETS.Allows(g.downOffset + d) && g.up + ENDPOINT_GUARD <= g.down + d
  }

  /** An offset edit moves its own endpoint by what it asks for, and not the other, exactly if
      there is room. */
  lemma EditMoves(m: Motion, d: int)
    requires Computed(m.geo)
    ensures var g, n := m.geo, Edited(m, UpOffset(d)).geo;
            && (RoomAtUp(g, d) <==> n.up == g.up + d && n.down == g.down)
            && (RoomAtUp(g, d) ==> Computed(n)) && n.rawUp == g.rawUp && n.rawDown == g.rawDown
    ensures var g, n := m.geo, Edited(m, DownOffset(d)).geo;
            && (RoomAtDown(g, d) <==> n.down == g.down + d && n.up == g.up)
            && (RoomAtDown(g, d) ==> Computed(n)) && n.rawUp == g.rawUp && n.rawDown == g.rawDown
  {
  }

  /** An offset moved by `d` and back is where it was: it stays within its limits, or begins at one
      and moves away from it. */
  predicate Returns(off: int, d: int) {
    OFFSETS.Allows(off + d) || (off == OFFSET_MIN && d > 0) || (off == OFFSET_MAX && d < 0)
  }

  /** The reverse of an edit gives the machine back as it was exactly if its own offset returns, and
      DOWN was not pushed by the guard on the way; or was, with its offset at the upper limit,
      where it falls back to. A DOWN held by the guard falls back to that. */
  lemma UpEditUndone(m: Motion, d: int)
    requires Computed(m.geo)
    ensures Edited(Edited(m, UpOffset(d)), UpOffset(-d)) == m <==>
              && Returns(m.geo.upOffset, d)
              && (m.geo.rawUp + Clamp(m.geo.upOffset + d, OFFSET_MIN, OFFSET_MAX) + ENDPOINT_GUARD <= m.geo.down
                  || m.geo.downOffset == OFFSET_MAX)
  {
    hide Recomputed;
    var a := m.geo.(upOffset := Clamp(m.geo.upOffset + d, OFFSET_MIN, OFFSET_MAX));
    ComputedFrom(a);
    var b := Recomputed(a);
    var c := b.(upOffset := Clamp(b.upOffset - d, OFFSET_MIN, OFFSET_MAX));
    ComputedFrom(c);
    SameMotion(m, Edited(Edited(m, UpOffset(d)), UpOffset(-d)));
  }

  lemma DownEditUndone(m: Motion, d: int)
    requires Computed(m.geo)
    ensures Edited(Edited(m, DownOffset(d)), DownOffset(-d)) == m <==>
              && (Returns(m.geo.downOffset, d) || (d > 0 && m.geo.down == m.geo.up + ENDPOINT_GUARD))
              && (m.geo.up + ENDPOINT_GUARD <= m.geo.rawDown + Clamp(m.geo.downOffset + d, OFFSET_MIN, OFFSET_MAX)
                  || m.geo.downOffset == OFFSET_MAX)
  {
    hide Recomputed;
    var a := m.geo.(downOffset := Clamp(m.geo.downOffset + d, OFFSET_MIN, OFFSET_MAX));
    ComputedFrom(a);
    var b := Recomputed(a);
    var c := b.(downOffset := Clamp(b.downOffset - d, OFFSET_MIN, OFFSET_MAX));
    ComputedFrom(c);
    SameMotion(m, Edited(Edited(m, DownOffset(d)), DownOffset(-d)));
  }

  /** Recomputed from an UP offset within its limits. */
  lemma ComputedFrom(g: Geometry)
    requires g.calibrated && OFFSETS.Allows(g.upOffset)
    ensures var n := Recomputed(g);
            var asked := g.rawDown + Clamp(g.downOffset, OFFSET_MIN, OFFSET_MAX);
            && n == g.(up := n.up, down := n.down, downOffset := n.downOffset) && n.up == g.rawUp + g.upOffset
            && n.down == (if asked < n.up + ENDPOINT_GUARD then n.up + ENDPOINT_GUARD else asked)
            && n.downOffset == n.down - g.rawDown
  {
  }

  /** Two states that differ in nothing but the geometry are the same exactly if that is. */
  lemma SameMotion(m: Motion, n: Motion)
    requires n == m.(geo := n.geo)
    ensures n == m <==> n.geo == m.geo
  {
  }

  // ---------------------------------------------------------------------------
  //  The endpoints in any run
  // ---------------------------------------------------------------------------

  /** The effective endpoints of a calibrated machine are what recomputing them would give. */
  predicate Follows(g: Geometry) {
    g.calibrated ==> Recomputed(g) == g
  }

  lemma RecomputedFollows(g: Geometry)
    ensures Follows(Recomputed(g)) && Follows(Recomputed(g).(stale := true)) && Follows(Recomputed(g).(stale := false))
  {
  }

  lemma FollowsExactly(g: Geometry)
    ensures Follows(g) && OFFSETS.Allows(g.downOffset) && g.calibrated <==> Computed(g)
    ensures Follows(g) && g.calibrated ==>
              && g.up == g.rawUp + g.upOffset && g.down == g.rawDown + g.downOffset && g.up + ENDPOINT_GUARD <= g.down
              && OFFSETS.Allows(g.upOffset)
  {
  }

  lemma StaleFollows(g: Geometry, stale: bool)
    requires Follows(g)
    ensures Follows(g.(stale := stale))
  {
  }

  lemma HandledFollows(w: World, at: Sense)
    requires Inv(w) && Follows(w.m.geo)
    ensures Follows(Handled(w, at).m.geo)
  {
    hide Inv, Handled, Follows;
    HandledGeo(w, at);
    StaleFollows(w.m.geo, Handled(w, at).m.geo.stale);
  }

  lemma {:induction false} HandledGeo(w: World, at: Sense)
    ensures Handled(w, at).m.geo == w.m.geo.(stale := Handled(w, at).m.geo.stale)
  {
    hide MeasuredTrips, Arrived, Monitored, Since, NearPos;
    ArrivedGeo(w, at.now);
    MonitoredGeo(w, at);
  }

  lemma ArrivedGeo(w: World, now: int)
    ensures Arrived(w, now).m.geo == w.m.geo
  {
    hide MeasuredTrips, HeadingDown, FlipTarget, Since, A.Stroke, A.StrokeDone, A.Result;
  }

  lemma MonitoredGeo(w: World, at: Sense)
    ensures Monitored(w, at).m.geo == w.m.geo.(stale := Monitored(w, at).m.geo.stale)
  {
    hide HeadingDown, Blanked, InZone, InDecelWindow, Add, Count, Fires;
  }

  lemma RunsKeepGeo(w: World, now: int, pos: int)
    ensures forall z :: z in {Started(w, now, pos), AutoStarted(w, now, pos), BatchStarted(w, now, pos)} ==>
              z.m.geo == w.m.geo
    ensures Stopped(w, now).m.geo == w.m.geo
  {
    hide FirstTarget, JamDetectionSetUp, MeasuredTrips;
  }

  lemma SearchFollows(w: World, h: HomeRun, c: CalRun)
    requires Follows(w.m.geo)
    ensures Follows(Homed(w, h).m.geo) && Follows(CalibratedWorld(w, c).m.geo)
  {
    hide Recomputed, LastNudge, CalSucceeds, Follows;
    StaleFollows(w.m.geo, !HomeCompletes(h));
    RecomputedFollows(w.m.geo.(rawUp := 0));
    var f := if UpFound(c) then w.m.geo.(rawUp := 0, calibrated := false) else w.m.geo.(calibrated := false);
    RecomputedFollows(f.(rawDown := c.measuredDown, calibrated := true, stale := false, upOffset := 0,
                         downOffset := DOWN_OFFSET_DEFAULT));
    Uncalibrated(f.(stale := true));
  }

  lemma Uncalibrated(g: Geometry)
    ensures !g.calibrated ==> Follows(g)
  {
  }

  lemma {:induction false} ToggledGeo(w: World, n: nat, now: int, pos: int)
    ensures Toggled(w, n, now, pos).m.geo == w.m.geo
    decreases n
  {
    hide Started, AutoStarted, BatchStarted, Stopped, GateToggleRun, GateView;
    if n > 0 && GateToggleRun(GateView(w.m)) == Nothing {
      RunsKeepGeo(w, now, pos);
      ToggledGeo(if CanStart(w.m.run) then Started(w, now, pos) else Stopped(w, now), n - 1, now, pos);
    }
  }

  lemma SettingsKeepGeo(w: World, idx: int, ma: int)
    ensures CurrentSet(ProfileSet(w, idx), ma).m.geo == w.m.geo
  {
  }

  lemma CommandedFollows(w: World, r: Requests, f: Field)
    requires Follows(w.m.geo)
    ensures Follows(Commanded(w, r, f).m.geo)
  {
    hide CalibratedWorld, AutoStarted, Homed, Toggled, Started, Stopped, BatchStarted, ProfileSet, CurrentSet,
         GateView, GateBatchStart, GateStop, GateReturnHome, GateAutoSg, GateCalibrate, Ready, Follows;
    SearchFollows(w, f.home, f.cal);
    var a := CalibrateCommand(w, r, f);
    RunsKeepGeo(a, f.now, f.posAuto);
    var b := AutoSgCommand(a, r, f);
    SearchFollows(b, f.home, f.cal);
    var c := HomeCommand(b, r, f);
    ToggledGeo(c, r.toggles, f.now, f.posToggle);
    var d := Toggled(c, r.toggles, f.now, f.posToggle);
    RunsKeepGeo(d, f.now, f.posToggle);
    var e := StopCommand(d, r, f);
    RunsKeepGeo(e, f.now, f.posBatch);
    SettingsKeepGeo(BatchCommand(e, r, f), r.profile, r.currentMa);
  }

  lemma ResetFollows(y: System, r: Requests, io: Io)
    requires Follows(y.w.m.geo)
    ensures Follows(ResetCommand(y, r, io).w.m.geo)
  {
    hide Recomputed, Written, Capture, Follows;
    RecomputedFollows(WithDefaults(y.w.m).geo);
  }

  lemma EditFollows(m: Motion, e: Edit)
    requires Follows(m.geo)
    ensures Follows(Edited(m, e).geo)
  {
    hide Recomputed, Follows;
    RecomputedFollows(Edited(m, e).geo);
    RecomputedFollows(m.geo);
    if m.geo.calibrated {
      match e
      case UpOffset(d) => RecomputedFollows(m.geo.(upOffset := Clamp(m.geo.upOffset + d, OFFSET_MIN, OFFSET_MAX)));
      case DownOffset(d) =>
        RecomputedFollows(m.geo.(downOffset := Clamp(m.geo.downOffset + d, OFFSET_MIN, OFFSET_MAX)));
      case _ =>
    }
  }

  lemma LoadFollows(flash: Option<seq<byte>>, readable: bool, now: int, ok: bool)
    ensures Follows(Load(DEFAULTS, flash, readable, now, ok).0.geo)
  {
    hide Recomputed, ParseAndMigrate, Capture, Image, Follows;
    RecomputedFollows(BootCounted(Loaded(DEFAULTS, if readable then flash else None)).geo);
  }

  lemma {:induction false} NextFollows(y: System, ev: Event)
    requires Inv(y.w) && (Follows(y.w.m.geo) || ev.Reboot?)
    ensures Follows(Next(y, ev).w.m.geo)
  {
    hide Inv, Handled, Commanded, ResetCommand, Tick, SaveNow, Load, Edited, Follows;
    match ev
    case Pump(at, r, f, io) =>
      HandledFollows(y.w, at);
      CommandedFollows(Handled(y.w, at), r, f);
      ResetFollows(y.(w := Commanded(Handled(y.w, at), r, f)), r, io);
    case Write(e, now, ok) =>
      EditFollows(y.w.m, e);
    case Reboot(readable, now, ok) =>
      LoadFollows(y.s.flash, readable, now, ok);
  }

  /** In any run from any boot: the effective endpoints of a calibrated machine are the raw ones moved
      by the offsets it keeps, UP's within its limits, and at least the guard apart. */
  lemma {:induction false} AlwaysFollows(y: System, evs: seq<Event>, n: nat)
    requires 0 < n <= |evs| && Inv(y.w) && evs[0].Reboot?
    ensures var g := After(y, evs, n).w.m.geo;
            && Follows(g)
            && (g.calibrated ==>
                  && g.up == g.rawUp + g.upOffset && g.down == g.rawDown + g.downOffset
                  && g.up + ENDPOINT_GUARD <= g.down && OFFSETS.Allows(g.upOffset))
  {
    hide Inv, Next, Follows, Ready;
    if n > 1 {
      AlwaysFollows(y, evs, n - 1);
    }
    AlwaysInv(y, evs, n - 1);
    NextFollows(After(y, evs, n - 1), evs[n - 1]);
    FollowsExactly(After(y, evs, n).w.m.geo);
  }

  // ---------------------------------------------------------------------------
  //  Homing and calibrating
  // ---------------------------------------------------------------------------

  /** A home that completes makes the stop it found 0, backs off from it and parks at UP, whose
      offset it keeps; DOWN stays unless UP comes too close. One that does not find the stop
      moves nothing but the stale flag. */
  lemma HomeReferences(w: World, h: HomeRun)
    requires Computed(w.m.geo) && w.m.run in {Idle, Stalled}
    ensures var g, z := w.m.geo, Homed(w, h);
            && z.m.profiles == w.m.profiles && z.m.runCurrentMa == w.m.runCurrentMa && z.drive.speedHz == Speed(w.m)
            && (HomeCompletes(h) ==>
                  && z.m.geo.calibrated && z.m.geo.rawUp == 0 && z.m.geo.rawDown == g.rawDown
                  && z.m.geo.up == z.m.geo.upOffset == g.upOffset
                  && z.m.geo.down == (if g.down < g.upOffset + ENDPOINT_GUARD then g.upOffset + ENDPOINT_GUARD
                                      else g.down)
                  && z.drive.nudge > 0 && z.drive.target == z.m.geo.up)
            && (h.search != S.Found ==>
                  z.m.geo == g.(stale := true) && z.drive.nudge < 0 && z.drive.target == w.drive.target)
  {
  }

  /** No search failed and none was aborted, on the way DOWN or UP; and the travel measured is
      at least twice the guard. */
  predicate Clean(c: CalRun) {
    && c.up == S.Found == c.down && c.premove != S.Aborted
    && !c.upAborted && !c.downAborted && !(c.premove == S.Found && c.premoveAborted)
    && c.measuredDown >= 2 * ENDPOINT_GUARD
  }

  /** A calibration succeeds exactly if it was clean. Then UP is 0, DOWN what was measured, taken
      back by the compiled-in offset as far as the guard lets it, and the press parks at UP; if
      not, the machine is uncalibrated and its position stale. */
  lemma CalibrationStores(w: World, c: CalRun)
    requires w.m.run == Idle
    ensures var z := CalibratedWorld(w, c); var g := z.m.geo;
            && (g.calibrated <==> Clean(c)) && z.m.profiles == w.m.profiles && z.m.runCurrentMa == w.m.runCurrentMa
            && z.drive.speedHz == Speed(w.m)
            && if Clean(c) then
                 && g.rawUp == g.up == g.upOffset == 0 && g.rawDown == c.measuredDown && g.stale == c.parkLost
                 && g.down == (if c.measuredDown + DOWN_OFFSET_DEFAULT < ENDPOINT_GUARD then ENDPOINT_GUARD
                               else c.measuredDown + DOWN_OFFSET_DEFAULT)
                 && g.down == g.rawDown + g.downOffset && z.drive.nudge < 0 && z.drive.target == 0
               else
                 && g.stale && g.rawDown == w.m.geo.rawDown && z.m.health == w.m.health
                 && z.drive.target == w.drive.target
  {
  }

  /** The relative moves of a calibration, one after the other: down a little, up, down, and after
      every stop found a step back from it; up to the first search that fails or is aborted. */
  function CalibrationMoves(c: CalRun): seq<int> {
    var first := [CAL_PREMOVE_DOWN_STEPS] + StepBack(c.premove, -CAL_OVERSHOOT_BACKOFF_STEPS);
    if c.premove == S.Aborted || (c.premove == S.Found && c.premoveAborted) then first
    else
      var second := first + [-CAL_SEARCH_STEPS] + StepBack(c.up, CAL_OVERSHOOT_BACKOFF_STEPS);
      if c.up != S.Found || c.upAborted then second
      else second + [CAL_SEARCH_STEPS] + StepBack(c.down, -CAL_OVERSHOOT_BACKOFF_STEPS)
  }

  function StepBack(o: S.Outcome, steps: int): seq<int> {
    if o == S.Found then [steps] else []
  }

  /** What the stepper was last told to move by is the last of them, and every step back is away
      from the stop that the move before it found. */
  lemma MovesReverse(w: World, c: CalRun)
    requires w.m.run == Idle
    ensures var ms := CalibrationMoves(c);
            && |ms| > 0 && CalibratedWorld(w, c).drive.nudge == ms[|ms| - 1]
            && forall i :: 0 <= i < |ms| && Abs(ms[i]) == CAL_OVERSHOOT_BACKOFF_STEPS ==>
                 i > 0 && (ms[i] > 0 <==> ms[i - 1] < 0)
  {
    hide CalibratedMotion;
  }
}
