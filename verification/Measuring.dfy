/** Auto SG over whole runs: every trip is measured on its own profile, at that profile's
    speed, and whatever ends the measuring gives the operator's profile back. */
module Measuring {
  import opened Config
  import opened MotionCmd
  import opened MotionState
  import opened MotorFsm
  import opened Numbers
  import opened Runs
  import opened SettingsBlob
  import opened SettingsStore
  import opened StallMonitor
  import opened Supervisor
  import A = AutoSg

  function Readings(log: seq<Sampled>): seq<nat> {
    if |log| == 0 then [] else Readings(log[..|log| - 1]) + [log[|log| - 1].sg]
  }

  function Summary(log: seq<Sampled>): Stats {
    StatsOf(Readings(log))
  }

  function Summaries(fed: seq<seq<Sampled>>): (ss: seq<Stats>)
    ensures |ss| == |fed|
  {
    if |fed| == 0 then [] else Summaries(fed[..|fed| - 1]) + [Summary(fed[|fed| - 1])]
  }

  /** All readings were taken while profile `p` was active, within the register's range. */
  ghost predicate TakenAt(log: seq<Sampled>, p: int) {
    forall i :: 0 <= i < |log| ==> log[i].profile == p && log[i].sg <= SG_RESULT_MAX
  }

  /** Auto SG's state is what it makes of the strokes fed to it, each of which was measured
      while the profile it was fed for was active. */
  ghost predicate FedRight(sg: A.Auto, fed: seq<seq<Sampled>>) {
    var ss := Summaries(fed);
    && sg == A.Fed(A.SHIPPED, ss, |ss|)
    && forall j :: 0 <= j < |fed| ==> TakenAt(fed[j], A.Fed(A.SHIPPED, ss, j).profile)
  }

  ghost predicate Recorded(w: World) {
    && w.stroke == Summary(w.past.log)
    && (w.m.run == Running ==> TakenAt(w.past.log, w.m.profiles.active))
    && (w.m.auto.active ==> FedRight(w.sg, w.past.fed))
  }

  lemma ReadingsMore(log: seq<Sampled>, s: Sampled)
    ensures Summary(log + [s]) == Add(Summary(log), s.sg)
  {
    hide Add;
    assert (log + [s])[..|log|] == log;
    var rs := Readings(log);
    assert (rs + [s.sg])[..|rs|] == rs;
  }

  lemma SummariesMore(fed: seq<seq<Sampled>>, log: seq<Sampled>)
    ensures Summaries(fed + [log]) == Summaries(fed) + [Summary(log)]
  {
    hide Summary;
    assert (fed + [log])[..|fed|] == fed;
  }

  /** What was fed first does not depend on what is fed later. */
  lemma {:induction false} FedPrefix(ss: seq<Stats>, s: Stats, k: nat)
    requires k <= |ss|
    ensures A.Fed(A.SHIPPED, ss + [s], k) == A.Fed(A.SHIPPED, ss, k)
  {
    hide A.StrokeDone;
    if k > 0 {
      FedPrefix(ss, s, k - 1);
      assert (ss + [s])[k - 1] == ss[k - 1];
    }
  }

  lemma FedMore(sg: A.Auto, fed: seq<seq<Sampled>>, log: seq<Sampled>)
    requires sg.Valid() && FedRight(sg, fed) && TakenAt(log, sg.profile)
    ensures FedRight(A.StrokeDone(A.SHIPPED, sg, Summary(log)), fed + [log])
  {
    hide A.StrokeDone, Summary, TakenAt;
    var ss, s := Summaries(fed), Summary(log);
    SummariesMore(fed, log);
    FedPrefix(ss, s, |ss|);
    forall j | 0 <= j < |fed| + 1
      ensures TakenAt((fed + [log])[j], A.Fed(A.SHIPPED, ss + [s], j).profile)
    {
      FedPrefix(ss, s, j);
    }
  }

  // ---------------------------------------------------------------------------
  //  Every step keeps the record
  // ---------------------------------------------------------------------------

  lemma EmptyLog()
    ensures Summary([]) == NO_STATS
  {
  }

  lemma StoppedRecorded(w: World, now: int)
    ensures Recorded(w) ==> Recorded(Stopped(w, now))
  {
    hide MeasuredTrips, Summary, TakenAt, FedRight;
  }

  lemma StartedRecorded(w: World, now: int, pos: int)
    requires Inv(w) && w.stroke == Summary(w.past.log) && (w.m.auto.active ==> FedRight(w.sg, w.past.fed))
    requires w.m.run == Running ==> Recorded(w)
    ensures Recorded(Started(w, now, pos))
  {
    hide FirstTarget, JamDetectionSetUp, Summary, FedRight;
    EmptyLog();
  }

  lemma AutoStartedRecorded(w: World, now: int, pos: int)
    requires Inv(w) && Recorded(w)
    ensures Recorded(AutoStarted(w, now, pos))
  {
    hide FirstTarget, JamDetectionSetUp, Summary, MeasuredTrips;
    EmptyLog();
    NothingFed();
  }

  lemma NothingFed()
    ensures FedRight(A.Begin(NUM_PROFILES), [])
  {
  }

  lemma TurnedRecorded(w: World, now: int)
    requires w.past.log == [] && w.stroke == NO_STATS && (w.m.auto.active ==> FedRight(w.sg, w.past.fed))
    ensures Recorded(Turned(w, now))
  {
    hide Endpoints.FlipTarget, Summary, FedRight;
    EmptyLog();
  }

  lemma {:induction false} AutoStrokeRecorded(w: World, now: int)
    requires Inv(w) && Recorded(w) && w.m.run == Running && w.m.auto.active
    ensures var b := AutoStroke(w, now);
            && (b.m.auto.active ==> FedRight(b.sg, b.past.fed)) && b.m.run == Running
  {
    hide MeasuredTrips, A.StrokeDone, A.Result, A.Stroke, FedRight, TakenAt, Summary;
    FedMore(w.sg, w.past.fed, w.past.log);
  }

  lemma ArrivedRecorded(w: World, now: int)
    requires Inv(w) && Recorded(w) && w.m.run == Running
    ensures Recorded(Arrived(w, now))
  {
    hide StrokeCounted, Stopped, Turned, AutoStroke, AutoEnds, HeadingDown, Since, A.Stroke, FedRight, TakenAt, Summary;
    CountedKeeps(w.m, Since(now, w.m.lastChangeMs));
    EmptyLog();
    var a := if Counts(w.m) then w.(m := StrokeCounted(w.m, Since(now, w.m.lastChangeMs))) else w;
    if CompletesBatch(w.m) {
      StoppedRecorded(a, now);
    } else if !a.m.auto.active {
      TurnedRecorded(StrokeReset(a), now);
    } else {
      AutoStrokeRecorded(w, now);
      var b := StrokeReset(AutoStroke(a, now));
      if AutoEnds(a) {
        NothingTaken(b.m.profiles.active);
        StoppedRecorded(b, now);
      } else {
        TurnedRecorded(b, now);
      }
    }
  }

  lemma NothingTaken(p: int)
    ensures TakenAt([], p)
  {
  }

  lemma MonitoredRecorded(w: World, at: Sense)
    requires Inv(w) && Recorded(w) && w.m.run == Running && at.sg <= SG_RESULT_MAX
    ensures Recorded(Monitored(w, at))
  {
    hide Blanked, InZone, InDecelWindow, HeadingDown, Fires, Count, Add, A.Stroke, FedRight, Summary, JamMotion;
    EmptyLog();
    JamKeeps(w.m, at.lost);
    JamStalls(w.m, at.lost);
    ReadingsMore(w.past.log, Sampled(at.sg, w.m.profiles.active));
  }

  lemma JamStalls(m: Motion, lost: bool)
    ensures forall n: nat, k: nat :: JamMotion(m.(high := n, low := k), lost).run == Stalled
    ensures forall n: nat, k: nat :: JamMotion(m.(high := n, low := k), lost).auto == m.auto
    ensures forall n: nat, k: nat :: JamMotion(m.(high := n, low := k), lost).profiles == m.profiles
  {
  }

  lemma HandledRecorded(w: World, at: Sense)
    requires Inv(w) && Recorded(w) && at.sg <= SG_RESULT_MAX
    ensures Recorded(Handled(w, at))
  {
    hide Arrived, Monitored, Stopped, Since, NearPos, A.Stroke, MeasuredTrips, FedRight, TakenAt, Summary;
    if w.m.run == Running {
      if TimedOut(w, at.now) {
        StoppedRecorded(AutoEnded(w, false), at.now);
      } else if !at.moving {
        ArrivedRecorded(w, at.now);
      } else {
        MonitoredRecorded(w, at);
      }
    }
  }

  lemma SearchRecorded(w: World, h: HomeRun, c: CalRun)
    ensures Inv(w) && Recorded(w) ==> Recorded(Homed(w, h)) && Recorded(CalibratedWorld(w, c))
  {
    hide MeasuredGeometry, Recomputed, LastNudge, CalSucceeds, FedRight, TakenAt, Summary;
  }

  lemma {:induction false} ToggledRecorded(w: World, n: nat, now: int, pos: int)
    requires Inv(w) && Recorded(w)
    ensures Recorded(Toggled(w, n, now, pos))
    decreases n
  {
    hide Inv, Started, Stopped, GateToggleRun, GateView, FedRight, TakenAt, Summary;
    if n > 0 && GateToggleRun(GateView(w.m)) == Nothing {
      StartedRecorded(w, now, pos);
      StoppedRecorded(w, now);
      StartedInv(w, now, pos);
      StoppedInv(w, now);
      ToggledRecorded(if CanStart(w.m.run) then Started(w, now, pos) else Stopped(w, now), n - 1, now, pos);
    }
  }

  lemma SettingsRecorded(w: World, idx: int, ma: int)
    ensures Inv(w) && Recorded(w) ==> Recorded(CurrentSet(ProfileSet(w, idx), ma))
  {
    hide FedRight, TakenAt, Summary;
  }

  lemma BatchRecorded(w: World, now: int, pos: int)
    requires Inv(w) && Recorded(w)
    ensures Recorded(BatchStarted(w, now, pos))
  {
    hide Started, FedRight, TakenAt, Summary;
    StartedRecorded(w, now, pos);
  }

  lemma CommandedRecorded(w: World, r: Requests, f: Field)
    requires Inv(w) && Recorded(w)
    ensures Recorded(Commanded(w, r, f))
  {
    hide Inv, Recorded, CalibratedWorld, AutoStarted, Homed, Toggled, Stopped, BatchStarted, ProfileSet, CurrentSet,
         GateView, GateBatchStart, GateStop, GateReturnHome, GateAutoSg, GateCalibrate;
    SearchRecorded(w, f.home, f.cal);
    CalibratedInv(w, f.cal);
    var a := CalibrateCommand(w, r, f);
    AutoStartedRecorded(a, f.now, f.posAuto);
    AutoStartedInv(a, f.now, f.posAuto);
    var b := AutoSgCommand(a, r, f);
    SearchRecorded(b, f.home, f.cal);
    HomedInv(b, f.home);
    var c := HomeCommand(b, r, f);
    ToggledRecorded(c, r.toggles, f.now, f.posToggle);
    ToggledInv(c, r.toggles, f.now, f.posToggle);
    var d := Toggled(c, r.toggles, f.now, f.posToggle);
    StoppedRecorded(d, f.now);
    StoppedInv(d, f.now);
    var e := StopCommand(d, r, f);
    BatchRecorded(e, f.now, f.posBatch);
    if GateBatchStart(GateView(e.m)) == Nothing {
      BatchStartedInv(e, f.now, f.posBatch);
    }
    SettingsRecorded(BatchCommand(e, r, f), r.profile, r.currentMa);
  }

  lemma ResetRecorded(y: System, r: Requests, io: Io)
    ensures Inv(y.w) && Recorded(y.w) ==> Recorded(ResetCommand(y, r, io).w)
  {
    hide Recomputed, Written, Capture, FedRight, TakenAt, Summary;
  }

  lemma BootRecorded(m: Motion)
    ensures m.run == Idle && !m.auto.active && m.profiles.Valid() ==> Recorded(Booted(m))
  {
    hide FedRight, TakenAt;
  }

  lemma NextRecorded(y: System, ev: Event)
    requires Inv(y.w) && Recorded(y.w) && (ev.Pump? ==> ev.at.sg <= SG_RESULT_MAX)
    ensures Recorded(Next(y, ev).w)
  {
    hide Inv, Handled, Commanded, ResetCommand, Tick, SaveNow, Load, Edited, FedRight, TakenAt, Summary;
    match ev
    case Pump(at, r, f, io) =>
      HandledRecorded(y.w, at);
      HandledInv(y.w, at);
      CommandedRecorded(Handled(y.w, at), r, f);
      CommandedInv(Handled(y.w, at), r, f);
      ResetRecorded(y.(w := Commanded(Handled(y.w, at), r, f)), r, io);
    case Write(e, now, ok) =>
      EditKeepsProfiles(y.w.m, e);
    case Reboot(readable, now, ok) =>
      BootReady(y.s.flash, readable, now, ok);
      BootRecorded(Load(DEFAULTS, y.s.flash, readable, now, ok).0);
  }

  /** StallGuard readings are ten bits wide. */
  ghost predicate TenBits(evs: seq<Event>) {
    forall i :: 0 <= i < |evs| ==> evs[i].Pump? ==> evs[i].at.sg <= SG_RESULT_MAX
  }

  /** In every run, the statistics Auto SG is handed are those of readings taken at the speed
      of the profile it hands them for, since that profile became active. */
  lemma {:induction false} AlwaysRecorded(y: System, evs: seq<Event>, n: nat)
    requires n <= |evs| && Inv(y.w) && Recorded(y.w) && TenBits(evs)
    ensures Recorded(After(y, evs, n).w)
  {
    hide Inv, Next, Recorded;
    if n > 0 {
      AlwaysRecorded(y, evs, n - 1);
      AlwaysInv(y, evs, n - 1);
      NextRecorded(After(y, evs, n - 1), evs[n - 1]);
    }
  }

  // ---------------------------------------------------------------------------
  //  What comes of it
  // ---------------------------------------------------------------------------

  /** The stroke that has just arrived completes Auto SG. */
  predicate Completes(w: World) {
    w.m.auto.active && A.Result(A.SHIPPED, w.sg, w.stroke) == A.Done && w.m.runCurrentMa == w.saved.currentMa
  }

  lemma {:induction false} SummaryAt(fed: seq<seq<Sampled>>, j: nat)
    requires j < |fed|
    ensures Summaries(fed)[j] == Summary(fed[j])
  {
    hide Summary;
    if j < |fed| - 1 {
      SummaryAt(fed[..|fed| - 1], j);
    }
  }

  lemma {:induction false} ReadingIn(log: seq<Sampled>, i: nat)
    requires i < |log|
    ensures |Readings(log)| == |log| && Readings(log)[i] == log[i].sg
  {
    if i < |log| - 1 {
      ReadingIn(log[..|log| - 1], i);
    } else if |log| > 1 {
      ReadingIn(log[..|log| - 1], 0);
    }
  }

  lemma LogBounded(log: seq<Sampled>, p: int, i: nat)
    requires TakenAt(log, p) && i < |log|
    ensures log[i].sg <= SG_FLOOR || log[i].sg <= Summary(log).max
  {
    hide StatsOf;
    ReadingsInRange(log, p);
    StatsMean(Readings(log));
    ReadingIn(log, i);
  }

  lemma ReadingsInRange(log: seq<Sampled>, p: int)
    requires TakenAt(log, p)
    ensures forall k :: 0 <= k < |Readings(log)| ==> Readings(log)[k] <= SG_RESULT_MAX
  {
    ReadingsLength(log);
    forall k | 0 <= k < |Readings(log)|
      ensures Readings(log)[k] <= SG_RESULT_MAX
    {
      ReadingIn(log, k);
    }
  }

  lemma {:induction false} ReadingsLength(log: seq<Sampled>)
    ensures |Readings(log)| == |log|
  {
    if |log| > 0 {
      ReadingsLength(log[..|log| - 1]);
    }
  }

  lemma SummaryHonest(log: seq<Sampled>, p: int)
    requires TakenAt(log, p)
    ensures Summary(log).max == 0 || SG_FLOOR < Summary(log).max <= SG_RESULT_MAX
  {
    hide StatsOf;
    ReadingsInRange(log, p);
    StatsMean(Readings(log));
  }

  /** All strokes fed, the completing one included. */
  function Strokes(w: World): seq<seq<Sampled>> {
    w.past.fed + [w.past.log]
  }

  lemma CompletingStrokes(w: World)
    requires Inv(w) && Recorded(w) && w.m.run == Running && Completes(w)
    ensures var ss := Summaries(Strokes(w));
            && |ss| == |w.past.fed| + 1 && ss[|w.past.fed|] == w.stroke
            && A.Fed(A.SHIPPED, ss, |w.past.fed|) == w.sg
            && A.FromReadings(ss)
            && forall j :: 0 <= j < |ss| ==> TakenAt(Strokes(w)[j], A.Fed(A.SHIPPED, ss, j).profile)
  {
    hide Summary, TakenAt, A.StrokeDone, A.Result, A.Stroke;
    var fed, log := w.past.fed, w.past.log;
    SummariesMore(fed, log);
    FedPrefix(Summaries(fed), w.stroke, |fed|);
    var ss := Summaries(Strokes(w));
    forall j | 0 <= j < |ss|
      ensures TakenAt(Strokes(w)[j], A.Fed(A.SHIPPED, ss, j).profile)
    {
      FedPrefix(Summaries(fed), w.stroke, if j < |fed| then j else |fed|);
    }
    forall j | 0 <= j < |ss|
      ensures ss[j].max == 0 || SG_FLOOR < ss[j].max <= SG_RESULT_MAX
    {
      SummaryAt(Strokes(w), j);
      SummaryHonest(Strokes(w)[j], A.Fed(A.SHIPPED, ss, j).profile);
    }
  }

  lemma ThirteenEach()
    ensures A.Strokes(A.SHIPPED, A.MAX_PROFILES) == 39
  {
    assert A.Strokes(A.SHIPPED, 1) == 13;
    assert A.Strokes(A.SHIPPED, 2) == 26;
  }

  /** The press after Auto SG has completed: stopping, with the operator's profile back and
      the measured trips live. */
  lemma CompletionStops(w: World, now: int)
    ensures Inv(w) && w.m.run == Running && Completes(w) ==>
              var n := Arrived(w, now).m;
              && n.run == Stopping && !n.auto.active && n.profiles.active == w.saved.profile && n.profiles.pending == -1
              && n.profiles.trips == MeasuredTrips(A.StrokeDone(A.SHIPPED, w.sg, w.stroke))
              && n.profiles.calCurrentMa == w.m.runCurrentMa
  {
    hide A.StrokeDone, A.Result, A.Stroke, A.TripFor, HeadingDown, Endpoints.FlipTarget;
  }

  /** The trip of profile `i` holds: it is set, every reading of a stroke that counted for the
      profile was taken while the profile was active and lies below it by the margin (as far as
      the trip's range goes), and it is at the floor exactly if all of them were. */
  ghost predicate TripHolds(trip: int, fed: seq<seq<Sampled>>, i: nat) {
    var ss := Summaries(fed);
    && 0 < trip <= SG_RESULT_MAX
    && (forall j, k :: 0 <= j < |fed| && A.CountsFor(A.SHIPPED, ss, j, i) && 0 <= k < |fed[j]| ==>
          fed[j][k].profile == i && fed[j][k].sg <= trip
          && A.AtMost(fed[j][k].sg + SG_AUTO_MARGIN, RUN_SG_TRIP_MAX) <= trip)
    && (A.TripAtFloor(trip, A.FloorTripMax(A.SHIPPED)) <==>
          forall j :: 0 <= j < |fed| && A.CountsFor(A.SHIPPED, ss, j, i) ==> ss[j].max == 0)
  }

  /** Some reading taken for profile `i` lies below the trip by just the margin, or the trip is the
      margin above the floor: any reading above everything measured, by more, is above the trip. */
  ghost predicate TripTight(trip: int, fed: seq<seq<Sampled>>, i: nat) {
    var ss := Summaries(fed);
    if forall j :: 0 <= j < |fed| && A.CountsFor(A.SHIPPED, ss, j, i) ==> ss[j].max == 0
    then trip == SG_FLOOR + SG_AUTO_MARGIN
    else exists j, k :: 0 <= j < |fed| && A.CountsFor(A.SHIPPED, ss, j, i) && 0 <= k < |fed[j]|
                        && trip == A.AtMost(fed[j][k].sg + SG_AUTO_MARGIN, RUN_SG_TRIP_MAX)
  }

  /** A stroke off the floor has a reading as large as its statistics say. */
  lemma LargestTaken(log: seq<Sampled>, p: int) returns (k: nat)
    requires TakenAt(log, p) && Summary(log).max > 0
    ensures k < |log| && log[k].sg == Summary(log).max
  {
    hide StatsOf;
    ReadingsInRange(log, p);
    ReadingsLength(log);
    StatsMean(Readings(log));
    var i :| 0 <= i < |Readings(log)| && Readings(log)[i] == Summary(log).max;
    ReadingIn(log, i);
    k := i;
  }

  lemma ProfileTripTight(w: World, i: nat)
    requires Inv(w) && Recorded(w) && w.m.run == Running && Completes(w) && i < NUM_PROFILES
    ensures TripTight(A.TripFor(A.SHIPPED, A.StrokeDone(A.SHIPPED, w.sg, w.stroke), i), Strokes(w), i)
  {
    hide Summary, A.StrokeDone, A.Stroke, A.Result, A.FromReadings, Summaries, Recorded, Inv, A.TripFor, TakenAt,
         A.CountsFor, A.Fed;
    var fed := Strokes(w);
    var ss, last := Summaries(fed), |w.past.fed|;
    CompletingStrokes(w);
    A.TripsTight(ss, last, i);
    FloorExactly(ss, last, i);
    CompletingFed(w, ss, last);
    if exists j :: 0 <= j < |fed| && A.CountsFor(A.SHIPPED, ss, j, i) && ss[j].max != 0 {
      var a := A.Fed(A.SHIPPED, ss, last + 1);
      A.MeasuredHonestly(A.SHIPPED, ss, last + 1);
      A.DoneCloses(ss, last);
      var trip := A.TripFor(A.SHIPPED, a, i);
      var j :| 0 <= j <= last && A.CountsFor(A.SHIPPED, ss, j, i)
               && trip == A.AtMost(ss[j].max + SG_AUTO_MARGIN, RUN_SG_TRIP_MAX);
      NotAtFloor(ss, last, i, j, trip);
      SummaryAt(fed, j);
      var k := LargestTaken(fed[j], A.Fed(A.SHIPPED, ss, j).profile);
      assert trip == A.AtMost(fed[j][k].sg + SG_AUTO_MARGIN, RUN_SG_TRIP_MAX);
    }
  }

  /** The stroke that has just arrived is the last one fed. */
  lemma CompletingFed(w: World, ss: seq<Stats>, last: nat)
    ensures last < |ss| && ss[last] == w.stroke && A.Fed(A.SHIPPED, ss, last) == w.sg && Completes(w) ==>
              A.Fed(A.SHIPPED, ss, last + 1) == A.StrokeDone(A.SHIPPED, w.sg, w.stroke)
    ensures last < |ss| && ss[last] == w.stroke && A.Fed(A.SHIPPED, ss, last) == w.sg && Completes(w) ==>
              A.Result(A.SHIPPED, A.Fed(A.SHIPPED, ss, last), ss[last]) == A.Done
  {
    hide A.StrokeDone, A.Result;
  }

  /** A stroke that never left the floor does not set the trip of a profile that did. */
  lemma NotAtFloor(ss: seq<Stats>, k: nat, i: nat, j: nat, trip: nat)
    requires j <= k < |ss| && i < NUM_PROFILES && A.FromReadings(ss)
    requires trip == A.AtMost(ss[j].max + SG_AUTO_MARGIN, RUN_SG_TRIP_MAX)
    requires exists l :: 0 <= l <= k && A.CountsFor(A.SHIPPED, ss, l, i) && ss[l].max != 0
                         && A.AtMost(ss[l].max + SG_AUTO_MARGIN, RUN_SG_TRIP_MAX) <= trip
    ensures ss[j].max > 0
  {
    hide A.CountsFor;
  }

  lemma {:induction false} ProfileTripHolds(w: World, i: nat)
    requires Inv(w) && Recorded(w) && w.m.run == Running && Completes(w) && i < NUM_PROFILES
    ensures TripHolds(A.TripFor(A.SHIPPED, A.StrokeDone(A.SHIPPED, w.sg, w.stroke), i), Strokes(w), i)
  {
    hide Summary, A.StrokeDone, A.Stroke, A.Result, A.FromReadings, Summaries, Recorded, Inv, A.TripFor;
    var fed := Strokes(w);
    var ss, last := Summaries(fed), |w.past.fed|;
    CompletingStrokes(w);
    A.TripsHold(ss, last, i);
    FloorExactly(ss, last, i);
    var a := A.Fed(A.SHIPPED, ss, last + 1);
    TripInRange(a, i);
    forall j, k | 0 <= j < |fed| && A.CountsFor(A.SHIPPED, ss, j, i) && 0 <= k < |fed[j]|
      ensures fed[j][k].profile == i && fed[j][k].sg <= A.TripFor(A.SHIPPED, a, i)
      ensures A.AtMost(fed[j][k].sg + SG_AUTO_MARGIN, RUN_SG_TRIP_MAX) <= A.TripFor(A.SHIPPED, a, i)
    {
      SummaryAt(fed, j);
      LogBounded(fed[j], i, k);
      FloorBelowTrip(ss, last, i, j);
    }
  }

  lemma FloorBelowTrip(ss: seq<Stats>, k: nat, i: nat, j: nat)
    requires j <= k < |ss| && i < NUM_PROFILES && A.FromReadings(ss) && A.CountsFor(A.SHIPPED, ss, j, i)
    requires A.Result(A.SHIPPED, A.Fed(A.SHIPPED, ss, k), ss[k]) == A.Done
    ensures var trip := A.TripFor(A.SHIPPED, A.Fed(A.SHIPPED, ss, k + 1), i);
            A.AtMost(ss[j].max + SG_AUTO_MARGIN, RUN_SG_TRIP_MAX) <= trip && SG_FLOOR + SG_AUTO_MARGIN <= trip
  {
    hide A.Result, A.StrokeDone, A.CountsFor, A.Fed;
    A.TripsTight(ss, k, i);
    A.TripsHold(ss, k, i);
    A.MeasuredHonestly(A.SHIPPED, ss, k + 1);
    A.DoneCloses(ss, k);
    A.MarginAboveMeasured(A.Fed(A.SHIPPED, ss, k + 1), i);
    FloorExactly(ss, k, i);
  }

  lemma TripInRange(a: A.Auto, i: nat)
    ensures a.Valid() && i < NUM_PROFILES ==> A.TripFor(A.SHIPPED, a, i) <= SG_RESULT_MAX
  {
  }

  lemma FloorExactly(ss: seq<Stats>, k: nat, i: nat)
    requires k < |ss| && i < NUM_PROFILES && A.FromReadings(ss)
    ensures A.Result(A.SHIPPED, A.Fed(A.SHIPPED, ss, k), ss[k]) == A.Done ==>
              (A.Fed(A.SHIPPED, ss, k + 1).floorOnly[i] <==>
               forall j :: 0 <= j < k + 1 && A.CountsFor(A.SHIPPED, ss, j, i) ==> ss[j].max == 0)
  {
    hide A.Result, A.StrokeDone, A.Reached, A.CountsFor, A.Honest, A.FromReadings, A.Fed;
    if A.Result(A.SHIPPED, A.Fed(A.SHIPPED, ss, k), ss[k]) != A.Done {
      return;
    }
    var a := A.Fed(A.SHIPPED, ss, k + 1);
    A.DoneCloses(ss, k);
    A.MeasuredHonestly(A.SHIPPED, ss, k + 1);
    A.ReachedMeasured(a, i);
    if a.floorOnly[i] {
      forall j | 0 <= j < k + 1 && A.CountsFor(A.SHIPPED, ss, j, i)
        ensures ss[j].max == 0
      {
        A.NoStrokeAbove(A.SHIPPED, ss, k + 1, j, i);
      }
    } else {
      MeasuredOffFloor(a, i);
      A.ReachedBySome(A.SHIPPED, ss, k + 1, i);
    }
  }

  lemma MeasuredOffFloor(a: A.Auto, i: nat)
    ensures A.Honest(a) && i < a.profile == A.MAX_PROFILES && !a.floorOnly[i] ==>
              a.measured[i] > SG_FLOOR
  {
  }

  /** Auto SG completes after exactly thirteen strokes on each profile; then every profile has
      a trip that holds for what was measured on it, and the operator's profile is back. */
  lemma {:induction false} AutoSgMeasures(w: World, now: int)
    requires Inv(w) && Recorded(w) && w.m.run == Running && Completes(w)
    ensures |Strokes(w)| == 39
    ensures var n := Arrived(w, now).m;
            && n.run == Stopping && n.profiles.active == w.saved.profile && n.profiles.pending == -1
            && JamDetectionSetUp(n)
            && forall i :: 0 <= i < NUM_PROFILES ==>
                 TripHolds(n.profiles.trips.At(i), Strokes(w), i) && TripTight(n.profiles.trips.At(i), Strokes(w), i)
  {
    hide Inv, Recorded, Arrived, A.StrokeDone, A.TripFor, TripHolds, TripTight, A.Fed, A.Result;
    CompletingStrokes(w);
    ThirteenEach();
    A.DoneAfterEveryStroke(A.SHIPPED, Summaries(Strokes(w)), |w.past.fed|);
    CompletionStops(w, now);
    ProfileTripHolds(w, 0);
    ProfileTripHolds(w, 1);
    ProfileTripHolds(w, 2);
    ProfileTripTight(w, 0);
    ProfileTripTight(w, 1);
    ProfileTripTight(w, 2);
    TripSet(A.TripFor(A.SHIPPED, A.StrokeDone(A.SHIPPED, w.sg, w.stroke), 0), Strokes(w), 0);
    TripSet(A.TripFor(A.SHIPPED, A.StrokeDone(A.SHIPPED, w.sg, w.stroke), 1), Strokes(w), 1);
    TripSet(A.TripFor(A.SHIPPED, A.StrokeDone(A.SHIPPED, w.sg, w.stroke), 2), Strokes(w), 2);
  }

  lemma TripSet(trip: int, fed: seq<seq<Sampled>>, i: nat)
    ensures TripHolds(trip, fed, i) ==> trip > 0
  {
  }

  // ---------------------------------------------------------------------------
  //  However it ends
  // ---------------------------------------------------------------------------

  /** Auto SG goes on with the same operator's profile to give back, or it has ended, the press
      is stopping, and that profile is active again. Unless it completed, no trip changed. */
  ghost predicate GivesBack(w: World, n: World) {
    if n.m.auto.active then n.saved.profile == w.saved.profile && n.m.profiles.trips == w.m.profiles.trips
    else n.m.run == Stopping && n.m.profiles.active == w.saved.profile && n.m.profiles.pending == -1
  }

  lemma StoppedGivesBack(w: World, now: int)
    ensures Inv(w) && w.m.auto.active ==>
              GivesBack(w, Stopped(w, now)) && !Stopped(w, now).m.auto.active
    ensures Inv(w) && w.m.auto.active ==> Stopped(w, now).m.profiles.trips == w.m.profiles.trips
  {
    hide MeasuredTrips, A.Stroke;
  }

  lemma HandledGivesBack(w: World, at: Sense)
    requires Inv(w) && w.m.auto.active
    ensures GivesBack(w, Handled(w, at))
    ensures !(!at.moving && Completes(w) && !TimedOut(w, at.now)) ==>
              Handled(w, at).m.profiles.trips == w.m.profiles.trips
  {
    hide MeasuredTrips, A.Stroke, A.StrokeDone, A.Result, A.Fed, HeadingDown, Endpoints.FlipTarget, Blanked, InZone,
         InDecelWindow, Add, Since;
  }

  /** Without Auto SG no pump iteration changes a trip. */
  lemma HandledKeepsTrips(w: World, at: Sense)
    requires Inv(w) && !w.m.auto.active
    ensures Handled(w, at).m.profiles.trips == w.m.profiles.trips && !Handled(w, at).m.auto.active
  {
    hide MeasuredTrips, HeadingDown, Endpoints.FlipTarget, Blanked, InZone, InDecelWindow, Add, Since, Count, Fires,
         NearPos;
  }

  /** Auto SG takes over from the operator's profile, or refuses and leaves it as it was. */
  lemma AutoStartSaves(w: World, now: int, pos: int)
    requires Inv(w) && w.m.run == Idle
    ensures var n := AutoStarted(w, now, pos);
            && n.m.profiles.trips == w.m.profiles.trips
            && if n.m.auto.active then n.m.run == Running && n.saved.profile == w.m.profiles.active
               else n.m.run == Idle && n.m.profiles == w.m.profiles && n.drive == w.drive.(speedHz := Speed(w.m))
  {
    hide FirstTarget, JamDetectionSetUp, MeasuredTrips;
  }

  /** While the press stops, every command but a profile or a current is refused. */
  lemma StoppingRefuses(w: World, r: Requests, f: Field)
    ensures w.m.run == Stopping ==>
              Commanded(w, r, f) == CurrentSet(ProfileSet(w, r.profile), r.currentMa)
  {
    hide CalibratedWorld, AutoStarted, Homed, Started, Stopped, BatchStarted, ProfileSet, CurrentSet,
         JamDetectionSetUp;
  }

  lemma RunningToggles(w: World, n: nat, now: int, pos: int)
    requires Inv(w) && w.m.run == Running && n > 0
    ensures Toggled(w, n, now, pos) == Stopped(w, now) && Stopped(w, now).m.run == Stopping
  {
    hide Started, JamDetectionSetUp, MeasuredTrips, Toggled;
    ToggledStep(w, n, now, pos);
    if n > 1 {
      ToggledStep(Stopped(w, now), n - 1, now, pos);
    } else {
      ToggledStep(Stopped(w, now), 1, now, pos);
    }
  }

  /** While the press runs, a pass of commands can only stop it, and set a profile and a current. */
  lemma RunningCommands(w: World, r: Requests, f: Field)
    requires Inv(w) && w.m.run == Running
    ensures Commanded(w, r, f) == CurrentSet(ProfileSet(
              if r.toggles > 0 || r.stop then Stopped(w, f.now) else w, r.profile), r.currentMa)
  {
    hide Inv, CalibratedWorld, AutoStarted, Homed, Started, Stopped, BatchStarted, ProfileSet, CurrentSet,
         JamDetectionSetUp;
    if r.toggles > 0 {
      RunningToggles(w, r.toggles, f.now, f.posToggle);
    } else {
      StopsFromRunning(w, f.now);
    }
  }

  lemma StopsFromRunning(w: World, now: int)
    ensures Inv(w) && w.m.run == Running ==> Stopped(w, now).m.run == Stopping
  {
    hide MeasuredTrips;
  }

  /** The profile a command of the same pass asks for, or the one given back. */
  function Chosen(r: Requests, given: int): int {
    if 0 <= r.profile < NUM_PROFILES then r.profile else given
  }

  lemma SettingsOf(w: World, r: Requests)
    ensures var x := CurrentSet(ProfileSet(w, r.profile), r.currentMa);
            && x.m.auto == w.m.auto && x.m.run == w.m.run && x.saved == w.saved
            && x.m.profiles.trips == w.m.profiles.trips
            && (w.m.run == Stopping && !w.m.auto.active && w.m.profiles.pending == -1 ==>
                  x.m.profiles.active == Chosen(r, w.m.profiles.active) && x.m.profiles.pending == -1)
  {
  }

  /** One pump iteration on a press that Auto SG drives. */
  lemma PassGivesBack(y: System, ev: Event)
    requires Inv(y.w) && y.w.m.auto.active && ev.Pump?
    ensures var w, n := y.w, Next(y, ev).w;
            && (if n.m.auto.active then n.saved.profile == w.saved.profile
                else n.m.run == Stopping && n.m.profiles.active == Chosen(ev.r, w.saved.profile)
                     && n.m.profiles.pending == -1)
            && (n.m.profiles.trips == w.m.profiles.trips || Completes(w))
  {
    hide Inv, Handled, Tick, MeasuredTrips, Stopped, ProfileSet, CurrentSet, Commanded, Completes, TimedOut;
    var a := Handled(y.w, ev.at);
    HandledGivesBack(y.w, ev.at);
    HandledInv(y.w, ev.at);
    AutoMeansRunning(y.w);
    AutoMeansRunning(a);
    if a.m.auto.active {
      RunningCommands(a, ev.r, ev.f);
      StoppedGivesBack(a, ev.f.now);
      var b := if ev.r.toggles > 0 || ev.r.stop then Stopped(a, ev.f.now) else a;
      SettingsOf(b, ev.r);
    } else {
      StoppingRefuses(a, ev.r, ev.f);
      SettingsOf(a, ev.r);
    }
  }

  lemma AutoMeansRunning(w: World)
    ensures Inv(w) ==> w.m.auto.active ==> w.m.run == Running
  {
  }

  /** From when Auto SG is active until it is not, in any run without a reboot in between, it
      holds on to one operator's profile, and gives that one back when it ends. */
  lemma {:induction false} OperatorsProfileReturns(y: System, evs: seq<Event>, i: nat, j: nat)
    requires i < j <= |evs| && Inv(y.w) && forall k :: i <= k < j ==> !evs[k].Reboot?
    ensures var p, n := After(y, evs, i).w.saved.profile, After(y, evs, j).w;
            (forall k :: i <= k < j ==> After(y, evs, k).w.m.auto.active) ==>
              if n.m.auto.active then n.saved.profile == p
              else n.m.run == Stopping && n.m.profiles.pending == -1 && evs[j - 1].Pump?
                   && n.m.profiles.active == Chosen(evs[j - 1].r, p)
    decreases j
  {
    hide Inv, Next, Chosen;
    if !forall k :: i <= k < j ==> After(y, evs, k).w.m.auto.active {
      return;
    }
    if i < j - 1 {
      OperatorsProfileReturns(y, evs, i, j - 1);
    }
    AlwaysInv(y, evs, j - 1);
    var u, ev := After(y, evs, j - 1), evs[j - 1];
    if ev.Pump? {
      PassGivesBack(u, ev);
    } else {
      WriteKeepsAuto(u, ev);
    }
  }

  lemma WriteKeepsAuto(y: System, ev: Event)
    requires ev.Write?
    ensures Next(y, ev).w.m.auto == y.w.m.auto && Next(y, ev).w.saved == y.w.saved
  {
    hide Edited, SaveNow;
    EditKeepsProfiles(y.w.m, ev.e);
  }
}
