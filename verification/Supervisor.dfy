/** What the motion supervisor does, as functions of its state and of what it senses
    (main/motion/motion.cpp). The class of module Press carries it out step by step. */
module Supervisor {
  import opened Config
  import opened Endpoints
  import opened MotionState
  import opened MotorFsm
  import opened Numbers
  import opened SettingsBlob
  import opened StallMonitor
  import A = AutoSg
  import B = SgBlanking
  import S = StallSearch

  const NEAR_TOL := 2
  const STALL := StallConfig(RUN_SG_HIGH_NEEDED, RUN_SG_HIGH_SATURATION_MARGIN, RUN_SG_LOW_DECAY_COUNT)

  /** What Auto SG remembers of the run it interrupted. */
  datatype Saved = Saved(profile: int, currentMa: int, startMs: int)

  /** What the stepper was last told by setSpeedInHz, setAcceleration, moveTo and move. */
  datatype Drive = Drive(speedHz: int, accel: int, target: int, nudge: int)

  /** A StallGuard reading and the profile that was active when it was taken. */
  datatype Sampled = Sampled(sg: nat, profile: int)

  /** History, for specification only: the readings of the stroke so far, and those of every
      stroke handed to Auto SG since it began. */
  datatype History = History(log: seq<Sampled>, fed: seq<seq<Sampled>>)

  datatype State = State(
    m: Motion, stall: Stall, stroke: Stats, sg: A.Auto, saved: Saved, drive: Drive, past: History)

  /** One look at the hardware: the clock, the stepper's position and whether it moves, a
      StallGuard reading; after a jam, whether a wait for the forced stop gave up. */
  datatype Sense = Sense(now: int, pos: int, moving: bool, sg: nat, lost: bool)

  /** Profile numbers in range, also those Auto SG holds. */
  predicate Ready(w: State) {
    w.m.profiles.Valid() && 0 <= w.saved.profile < NUM_PROFILES && w.sg.Valid()
  }

  /** At power-up, before anything is loaded. */
  const POWERED := State(
    DEFAULTS, RESET, NO_STATS, A.NEVER_BEGUN, Saved(0, 0, 0), Drive(0, 0, 0, 0), History([], []))

  /** The states the machine can be in. */
  type World = w: State | Ready(w) witness POWERED

  predicate NearPos(a: int, b: int, tol: int) {
    Abs(a - b) <= tol
  }

  function Speed(m: Motion): int
    requires m.profiles.Valid()
  {
    SPEED_HZ.At(m.profiles.active)
  }

  predicate HeadingDown(m: Motion) {
    TargetIsDown(m.currentTarget, m.geo.up, m.geo.down)
  }

  function EffectiveTrip(m: Motion): int
    requires m.profiles.Valid()
  {
    if m.auto.active then 0 else m.profiles.trips.At(m.profiles.active)
  }

  function PendingApplied(w: World): World {
    if w.m.profiles.pending < 0 then w
    else w.(m := w.m.(profiles := w.m.profiles.(active := w.m.profiles.pending, pending := -1)))
  }

  function StallReset(w: World): World {
    w.(stall := RESET, m := w.m.(high := 0, low := 0))
  }

  function StrokeReset(w: World): World {
    w.(stroke := NO_STATS, past := w.past.(log := []))
  }

  function MeasuredTrips(sg: A.Auto): Triple
    requires sg.Valid()
  {
    Triple(A.TripFor(A.SHIPPED, sg, 0), A.TripFor(A.SHIPPED, sg, 1), A.TripFor(A.SHIPPED, sg, 2))
  }

  lemma SameTrips(sg: A.Auto)
    requires sg.Valid()
    ensures MeasuredTrips(A.Abort(sg)) == MeasuredTrips(sg)
  {
  }

  /** The operator's own profile is queued again; only on success do the trips change. */
  function AutoEnded(w: World, ok: bool): World {
    var p := w.m.profiles.(pending := w.saved.profile);
    w.(sg := A.Abort(w.sg),
       m := w.m.(auto := w.m.auto.(active := false),
                 profiles := if ok then p.(trips := MeasuredTrips(w.sg), calCurrentMa := w.saved.currentMa) else p))
  }

  function StopBegun(m: Motion, now: int): Motion {
    m.(run := Stopping, stopEntryMs := now, currentTarget := m.geo.up, batch := m.batch.(active := false))
  }

  function Stopped(w: World, now: int): World {
    if w.m.run != Running then w
    else
      var a := w.(m := StopBegun(w.m, now));
      var b := if a.m.auto.active then AutoEnded(a, false) else a;
      var c := PendingApplied(b);
      c.(drive := c.drive.(accel := RUN_DECEL, target := w.m.geo.up))
  }

  /** The far endpoint from either end, the nearer one from in between. */
  function FirstTarget(pos: int, up: int, down: int): int {
    if NearPos(pos, up, NEAR_TOL) then down
    else if NearPos(pos, down, NEAR_TOL) then up
    else if Abs(pos - up) < Abs(pos - down) then up
    else down
  }

  predicate MayStart(m: Motion) {
    m.geo.calibrated && !m.geo.stale && (JamDetectionSetUp(m) || m.auto.active) && m.run == Idle
  }

  function RunBegun(m: Motion, now: int): Motion {
    m.(run := Running, lastChangeMs := now)
  }

  function Started(w: World, now: int, pos: int): World {
    if !MayStart(w.m) then w
    else
      var a := PendingApplied(StallReset(w.(m := RunBegun(w.m, now))));
      Moving(StrokeReset(a), FirstTarget(pos, a.m.geo.up, a.m.geo.down))
  }

  /** The run moves on to `target` at the active profile's speed. */
  function Moving(w: World, target: int): World {
    w.(m := w.m.(currentTarget := target), drive := Drive(Speed(w.m), RUN_DECEL, target, w.drive.nudge))
  }

  function ProfileSet(w: World, idx: int): World {
    if !(0 <= idx < NUM_PROFILES) || w.m.auto.active then w
    else if w.m.run == Running then w.(m := w.m.(profiles := w.m.profiles.(pending := idx)))
    else
      w.(m := w.m.(profiles := w.m.profiles.(active := idx, pending := -1)),
         drive := w.drive.(speedHz := SPEED_HZ.At(idx)))
  }

  // ---------------------------------------------------------------------------
  //  Auto SG
  // ---------------------------------------------------------------------------

  function AutoBegun(w: World, now: int): World {
    w.(saved := Saved(w.m.profiles.active, w.m.runCurrentMa, now), sg := A.Begin(NUM_PROFILES),
       m := w.m.(auto := AutoView(true, 0, 0), profiles := w.m.profiles.(pending := -1, active := 0)),
       past := w.past.(fed := []))
  }

  function AutoStarted(w: World, now: int, pos: int): World {
    if w.m.run != Idle || w.m.auto.active then w
    else
      var a := Started(AutoBegun(w, now), now, pos);
      if a.m.run == Running then a
      else
        var b := PendingApplied(AutoEnded(a, false));
        b.(drive := b.drive.(speedHz := Speed(b.m)))
  }

  lemma NextInRange(sg: A.Auto, s: Stats)
    requires sg.Valid()
    ensures A.Result(A.SHIPPED, sg, s).NextProfile? ==> A.StrokeDone(A.SHIPPED, sg, s).profile < NUM_PROFILES
  {
  }

  function StrokeFed(w: World): World {
    var sg := A.StrokeDone(A.SHIPPED, w.sg, w.stroke);
    w.(sg := sg, past := w.past.(fed := w.past.fed + [w.past.log]),
       m := w.m.(auto := w.m.auto.(profile := sg.profile, stroke := A.Stroke(sg))))
  }

  /** The stroke that just finished is handed to Auto SG. */
  function AutoStroke(w: World, now: int): World {
    var a := StrokeFed(w);
    match A.Result(A.SHIPPED, w.sg, w.stroke)
    case Continue => a
    case NextProfile =>
      NextInRange(w.sg, w.stroke);
      a.(m := a.m.(profiles := a.m.profiles.(pending := a.sg.profile)), saved := a.saved.(startMs := now))
    case Done => AutoEnded(a, a.m.runCurrentMa == a.saved.currentMa)
    case Failed => AutoEnded(a, false)
  }

  predicate AutoEnds(w: World)
    requires w.sg.Valid()
  {
    A.Result(A.SHIPPED, w.sg, w.stroke).Done? || A.Result(A.SHIPPED, w.sg, w.stroke).Failed?
  }

  // ---------------------------------------------------------------------------
  //  The pump
  // ---------------------------------------------------------------------------

  /** A finished DOWN stroke of an ordinary run is counted, in one transaction. */
  function StrokeCounted(m: Motion, strokeMs: nat): Motion {
    var h := m.health;
    m.(counter := if m.counter < COUNTER_MAX then m.counter + 1 else m.counter,
       lifetimeCycles := (m.lifetimeCycles + 1) % U32,
       health := h.(totalCycleTimeMs := (h.totalCycleTimeMs + strokeMs) % U32,
                    longestCycleMs := if strokeMs > h.longestCycleMs then strokeMs else h.longestCycleMs),
       batch := if m.batch.active then BatchCounted(m.batch) else m.batch)
  }

  lemma CountedKeeps(m: Motion, strokeMs: nat)
    ensures var n := StrokeCounted(m, strokeMs);
            && n.auto == m.auto && n.profiles == m.profiles && n.geo == m.geo && n.run == m.run
            && n.currentTarget == m.currentTarget && n.high == m.high
  {
  }

  function BatchCounted(b: Batch): Batch {
    Batch(b.count + 1 < b.target, b.count + 1, b.target)
  }

  predicate Counts(m: Motion) {
    HeadingDown(m) && !m.auto.active
  }

  predicate CompletesBatch(m: Motion) {
    Counts(m) && m.batch.active && m.batch.count + 1 >= m.batch.target
  }

  function Turned(w: World, now: int): World {
    var a := PendingApplied(w);
    var target := FlipTarget(a.m.currentTarget, a.m.geo.up, a.m.geo.down);
    Moving(StallReset(a.(m := a.m.(lastChangeMs := now))), target)
  }

  /** The stepper has reached the target of a stroke. */
  function Arrived(w: World, now: int): World {
    var a := if Counts(w.m) then w.(m := StrokeCounted(w.m, Since(now, w.m.lastChangeMs))) else w;
    if CompletesBatch(w.m) then Stopped(a, now)
    else if !a.m.auto.active then Turned(StrokeReset(a), now)
    else
      var b := StrokeReset(AutoStroke(a, now));
      if AutoEnds(a) then Stopped(b, now) else Turned(b, now)
  }

  function JamMotion(m: Motion, lost: bool): Motion {
    m.(run := Stalled, batch := m.batch.(active := false),
       geo := if lost then m.geo.(stale := true) else m.geo,
       health := m.health.(stallCount := (m.health.stallCount + 1) % U16))
  }

  lemma JamKeeps(m: Motion, lost: bool)
    ensures JamMotion(m, lost).profiles == m.profiles
  {
  }

  /** Latched: backed off, away from where the stroke was heading. */
  function JamLatched(w: World, at: Sense): World {
    var a := StrokeReset(w);
    var b := a.(drive := Drive(CREEP_HOME_SPEED, CREEP_HOME_ACCEL, w.drive.target,
                               if HeadingDown(w.m) then -RUN_BACKOFF_STEPS else RUN_BACKOFF_STEPS),
                m := JamMotion(w.m, at.lost));
    PendingApplied(StallReset(b))
  }

  /** Where StallGuard is looked at: past the acceleration, outside the work zone, and
      outside the deceleration window unless a jam is already suspected. */
  predicate Blanked(m: Motion, now: int)
    requires m.profiles.Valid()
  {
    Since(now, m.lastChangeMs) < B.AccelBlankMs(Speed(m), RUN_DECEL)
  }

  predicate InZone(m: Motion, pos: int) {
    HeadingDown(m) && B.InWorkZone(pos, m.geo.down, m.workZone)
  }

  predicate InDecelWindow(m: Motion, pos: int)
    requires m.profiles.Valid()
  {
    Abs(pos - m.currentTarget) < B.DecelBlankSteps(Speed(m), RUN_DECEL) && m.high == 0
  }

  /** A reading is taken in this step. */
  predicate Samples(m: Motion, at: Sense)
    requires m.profiles.Valid()
  {
    !Blanked(m, at.now) && !InZone(m, at.pos) && !InDecelWindow(m, at.pos)
  }

  function Monitored(w: World, at: Sense): World {
    if Blanked(w.m, at.now) then w
    else if InZone(w.m, at.pos) then StallReset(w)
    else if InDecelWindow(w.m, at.pos) then w.(m := w.m.(low := 0))
    else
      var a := w.(stroke := Add(w.stroke, at.sg),
                  past := w.past.(log := w.past.log + [Sampled(at.sg, w.m.profiles.active)]));
      var trip := EffectiveTrip(w.m);
      if at.sg <= SG_FLOOR || trip <= 0 then a
      else
        var s := Count(STALL, w.stall, at.sg, trip);
        var b := a.(stall := s, m := a.m.(high := s.high, low := s.low));
        if Fires(STALL, w.stall, at.sg, trip) then JamLatched(b, at) else b
  }

  predicate TimedOut(w: World, now: int) {
    w.m.auto.active && Since(now, w.saved.startMs) > SG_AUTO_TIMEOUT_MS
  }

  function Ran(w: World, at: Sense): World {
    if TimedOut(w, at.now) then Stopped(AutoEnded(w, false), at.now)
    else if !at.moving then Arrived(w, at.now)
    else Monitored(w, at)
  }

  /** Stopping ends at the UP endpoint, at rest, or when it takes too long. */
  function Settling(w: World, at: Sense): World {
    if !at.moving || NearPos(at.pos, w.m.geo.up, STOP_ARRIVAL_TOL)
       || Since(at.now, w.m.stopEntryMs) > STOP_TIMEOUT_MS
    then w.(m := w.m.(run := Idle))
    else w
  }

  function Handled(w: World, at: Sense): World {
    if w.m.run == Running then Ran(w, at) else if w.m.run == Stopping then Settling(w, at) else w
  }

  // ---------------------------------------------------------------------------
  //  Homing and calibrating
  // ---------------------------------------------------------------------------

  /** How a home went: its search, an abort asked for in one of its positioning moves, and
      whether a wait for one of them gave up. */
  datatype HomeRun = HomeRun(search: S.Outcome, abortedLater: bool, lost: bool)

  predicate HomeCompletes(h: HomeRun) {
    h.search == S.Found && !h.abortedLater
  }

  /** The flag a lost wait latches is overwritten at the end. */
  function HomedMotion(m: Motion, h: HomeRun): Motion {
    var g := if h.search == S.Found then Recomputed(m.geo.(rawUp := 0)) else m.geo;
    m.(run := Idle, batch := m.batch.(active := false), geo := g.(stale := !HomeCompletes(h)))
  }

  lemma HomeKeeps(m: Motion, h: HomeRun)
    ensures HomedMotion(m, h).profiles == m.profiles
  {
    hide Recomputed;
  }

  /** A home ends idle; only a search that found the stop, not aborted, gives a position. */
  function Homed(w: World, h: HomeRun): World {
    if w.m.run != Idle && w.m.run != Stalled then w
    else
      var m := HomedMotion(w.m, h);
      w.(m := m,
         drive := if h.search == S.Found then Drive(Speed(w.m), RUN_DECEL, m.geo.up, CAL_OVERSHOOT_BACKOFF_STEPS)
                  else Drive(Speed(w.m), RUN_DECEL, w.drive.target, -CAL_SEARCH_STEPS))
  }

  /** How a calibration went: three searches, an abort asked for after each, the travel
      measured, whether a wait on the way gave up, and whether that for the last move did. */
  datatype CalRun = CalRun(
    premove: S.Outcome, premoveAborted: bool, up: S.Outcome, upAborted: bool, down: S.Outcome, downAborted: bool,
    measuredDown: int, lost: bool, parkLost: bool)

  predicate UpFound(c: CalRun) {
    (c.premove == S.NotFound || (c.premove == S.Found && !c.premoveAborted)) && c.up == S.Found && !c.upAborted
  }

  predicate CalSucceeds(c: CalRun) {
    UpFound(c) && c.down == S.Found && !c.downAborted && S.TravelPlausible(0, c.measuredDown, ENDPOINT_GUARD)
  }

  function MeasuredGeometry(g: Geometry, c: CalRun): Geometry {
    var f := if UpFound(c) then g.(rawUp := 0, calibrated := false) else g.(calibrated := false);
    if !CalSucceeds(c) then f.(stale := true)
    else
      Recomputed(f.(rawDown := c.measuredDown, calibrated := true, stale := false, upOffset := 0,
                    downOffset := DOWN_OFFSET_DEFAULT)).(stale := c.parkLost)
  }

  /** The last relative move of a calibration: a search, or the backoff from a stop it found. */
  function LastNudge(c: CalRun): int {
    if c.premove == S.Aborted then CAL_PREMOVE_DOWN_STEPS
    else if c.premove == S.Found && c.premoveAborted then -CAL_OVERSHOOT_BACKOFF_STEPS
    else if c.up != S.Found then -CAL_SEARCH_STEPS
    else if c.upAborted then CAL_OVERSHOOT_BACKOFF_STEPS
    else if c.down != S.Found then CAL_SEARCH_STEPS
    else -CAL_OVERSHOOT_BACKOFF_STEPS
  }

  function CalibratedMotion(m: Motion, c: CalRun): Motion {
    var h := m.health;
    m.(batch := m.batch.(active := false), geo := MeasuredGeometry(m.geo, c),
       health := if CalSucceeds(c) then h.(calibrationCount := (h.calibrationCount + 1) % U16) else h)
  }

  lemma CalibrationKeeps(m: Motion, c: CalRun)
    ensures CalibratedMotion(m, c).profiles == m.profiles
  {
    hide MeasuredGeometry;
  }

  function CalibratedWorld(w: World, c: CalRun): World {
    if w.m.run != Idle then w
    else
      var m := CalibratedMotion(w.m, c);
      w.(m := m,
         drive := Drive(Speed(w.m), RUN_DECEL, if CalSucceeds(c) then m.geo.up else w.drive.target, LastNudge(c)))
  }

  // ---------------------------------------------------------------------------
  //  Commands (main/motion/motion_cmd.cpp)
  // ---------------------------------------------------------------------------

  /** The queued requests; -1 is no profile and no current. */
  datatype Requests = Requests(
    calibrate: bool, autoSg: bool, returnHome: bool, toggles: nat, stop: bool, batchStart: bool, profile: int,
    currentMa: int, reset: bool)

  /** What the commands of one pass meet: the clock, the position each start finds, and how a
      calibration and a home go. */
  datatype Field = Field(now: int, posAuto: int, posToggle: int, posBatch: int, cal: CalRun, home: HomeRun)

  function GateView(m: Motion): GateInput {
    GateInput(m.run, m.geo.calibrated, m.geo.stale, m.batch.target, JamDetectionSetUp(m))
  }

  function Toggled(w: World, n: nat, now: int, pos: int): World
    decreases n
  {
    if n == 0 || GateToggleRun(GateView(w.m)) != Nothing then w
    else Toggled(if CanStart(w.m.run) then Started(w, now, pos) else Stopped(w, now), n - 1, now, pos)
  }

  function BatchStarted(w: World, now: int, pos: int): World {
    var a := Started(w, now, pos);
    if a.m.run == Running then a.(m := a.m.(batch := Batch(true, 0, a.m.batch.target))) else a
  }

  function CurrentSet(w: World, ma: int): World {
    if ma < 0 then w else w.(m := w.m.(runCurrentMa := Clamp(ma, RUN_CURRENT_MIN, RUN_CURRENT_MAX)))
  }

  function CalibrateCommand(w: World, r: Requests, f: Field): World {
    if r.calibrate && GateCalibrate(GateView(w.m)) == Nothing then CalibratedWorld(w, f.cal) else w
  }

  function AutoSgCommand(w: World, r: Requests, f: Field): World {
    if r.autoSg && GateAutoSg(GateView(w.m)) == Nothing then AutoStarted(w, f.now, f.posAuto) else w
  }

  function HomeCommand(w: World, r: Requests, f: Field): World {
    if r.returnHome && GateReturnHome(GateView(w.m)) == Nothing then Homed(w, f.home) else w
  }

  function StopCommand(w: World, r: Requests, f: Field): World {
    if r.stop && GateStop(GateView(w.m)) == Nothing then Stopped(w, f.now) else w
  }

  function BatchCommand(w: World, r: Requests, f: Field): World {
    if r.batchStart && GateBatchStart(GateView(w.m)) == Nothing then BatchStarted(w, f.now, f.posBatch) else w
  }

  /** The commands of one pass up to the run current, each behind its gate, in this order. */
  function Commanded(w: World, r: Requests, f: Field): World {
    hide *;
    var a := HomeCommand(AutoSgCommand(CalibrateCommand(w, r, f), r, f), r, f);
    var b := StopCommand(Toggled(a, r.toggles, f.now, f.posToggle), r, f);
    CurrentSet(ProfileSet(BatchCommand(b, r, f), r.profile), r.currentMa)
  }
}
