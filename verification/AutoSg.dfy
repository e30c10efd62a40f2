/** Auto SG: measuring a StallGuard trip for every profile (lib/autolee_logic/auto_sg.h). */
module AutoSg {
  import opened Config
  import opened StallMonitor

  const MAX_PROFILES := 3

  datatype AutoConfig = AutoConfig(strokes: nat, margin: nat, tripMin: nat, tripMax: nat)

  /** As motion.cpp configures it. */
  const SHIPPED := AutoConfig(SG_AUTO_STROKES, SG_AUTO_MARGIN, RUN_SG_TRIP_MIN, RUN_SG_TRIP_MAX)

  datatype Outcome = Continue | NextProfile | Done | Failed

  datatype Auto = Auto(
    profiles: nat, profile: nat, active: bool, seen: nat, max: nat, floor: nat,
    measured: seq<nat>, floorOnly: seq<bool>)
  {
    predicate Valid() {
      |measured| == |floorOnly| == MAX_PROFILES && profiles <= MAX_PROFILES && (active ==> profile < MAX_PROFILES)
    }
  }

  const NEVER_BEGUN := Auto(0, 0, false, 0, 0, 0, [0, 0, 0], [false, false, false])

  function Begin(n: nat): Auto {
    Auto(if n > MAX_PROFILES then MAX_PROFILES else n, 0, true, 0, 0, 0, [0, 0, 0], [false, false, false])
  }

  function Abort(a: Auto): Auto {
    a.(active := false)
  }

  /** The first stroke of a profile is discarded, later ones add up. */
  function Seen(a: Auto, s: Stats): Auto {
    if a.seen == 0 then a.(seen := 1)
    else a.(seen := a.seen + 1, max := if s.max > a.max then s.max else a.max, floor := a.floor + s.floor)
  }

  /** The profile is measured: on to the next one. */
  function Closed(a: Auto): Auto
    requires a.Valid() && a.active
  {
    a.(floorOnly := a.floorOnly[a.profile := a.max == 0],
       measured := a.measured[a.profile := if a.max == 0 then 1 else a.max],
       profile := a.profile + 1, seen := 0, max := 0, floor := 0, active := a.profile + 1 < a.profiles)
  }

  function StrokeDone(cfg: AutoConfig, a: Auto, s: Stats): (r: Auto)
    requires a.Valid()
    ensures r.Valid()
  {
    var b := Seen(a, s);
    if !a.active then a
    else if b.seen < cfg.strokes + 1 then b
    else if b.max == 0 && b.floor == 0 then Abort(b)
    else Closed(b)
  }

  function Result(cfg: AutoConfig, a: Auto, s: Stats): Outcome
    requires a.Valid()
  {
    var b := Seen(a, s);
    if !a.active then Failed
    else if b.seen < cfg.strokes + 1 then Continue
    else if b.max == 0 && b.floor == 0 then Failed
    else if a.profile + 1 >= a.profiles then Done
    else NextProfile
  }

  function Stroke(a: Auto): nat {
    if a.seen > 0 then a.seen - 1 else 0
  }

  function TripFor(cfg: AutoConfig, a: Auto, i: nat): nat
    requires a.Valid() && i < MAX_PROFILES
  {
    var t := a.measured[i] + cfg.margin;
    var u := if t < cfg.tripMin then cfg.tripMin else t;
    if u > cfg.tripMax then cfg.tripMax else u
  }

  function FloorTripMax(cfg: AutoConfig): nat {
    1 + cfg.margin
  }

  predicate TripAtFloor(trip: nat, floorMax: nat) {
    0 < trip <= floorMax
  }

  class AutoSg {
    const cfg: AutoConfig
    const measured: array<nat>
    const floorOnly: array<bool>
    var profiles: nat
    var profile: nat
    var active: bool
    var seen: nat
    var max: nat
    var floor: nat

    ghost predicate Valid()
      reads this, measured, floorOnly
    {
      measured.Length == floorOnly.Length == MAX_PROFILES && View().Valid()
    }

    ghost function View(): Auto
      reads this, measured, floorOnly
    {
      Auto(profiles, profile, active, seen, max, floor, measured[..], floorOnly[..])
    }

    constructor (cfg: AutoConfig)
      ensures Valid() && View() == NEVER_BEGUN && this.cfg == cfg && fresh(measured) && fresh(floorOnly)
    {
      this.cfg := cfg;
      profiles, profile, active, seen, max, floor := 0, 0, false, 0, 0, 0;
      measured, floorOnly := new nat[MAX_PROFILES](_ => 0), new bool[MAX_PROFILES](_ => false);
    }

    method BeginMeasuring(n: nat)
      requires Valid()
      modifies this, measured, floorOnly
      ensures Valid() && View() == Begin(n)
    {
      profiles := if n > MAX_PROFILES then MAX_PROFILES else n;
      profile := 0;
      active := true;
      ResetProfile();
      for i := 0 to MAX_PROFILES
        invariant forall k :: 0 <= k < i ==> measured[k] == 0 && !floorOnly[k]
        modifies measured, floorOnly
      {
        measured[i] := 0;
        floorOnly[i] := false;
      }
      assert measured[..] == [0, 0, 0];
      assert floorOnly[..] == [false, false, false];
    }

    method AbortMeasuring()
      requires Valid()
      modifies `active
      ensures Valid() && View() == Abort(old(View()))
    {
      active := false;
    }

    method TripOf(i: nat) returns (trip: nat)
      requires Valid() && i < MAX_PROFILES
      ensures trip == TripFor(cfg, View(), i)
    {
      trip := measured[i] + cfg.margin;
      if trip < cfg.tripMin {
        trip := cfg.tripMin;
      }
      if trip > cfg.tripMax {
        trip := cfg.tripMax;
      }
    }

    method ResetProfile()
      modifies `seen, `max, `floor
      ensures seen == 0 && max == 0 && floor == 0
    {
      seen := 0;
      max := 0;
      floor := 0;
    }

    method StrokeFinished(s: Stats) returns (r: Outcome)
      requires Valid()
      modifies this, measured, floorOnly
      ensures Valid() && View() == StrokeDone(cfg, old(View()), s) && r == Result(cfg, old(View()), s)
    {
      if !active {
        return Failed;
      }
      seen := seen + 1;
      if seen > 1 {
        if s.max > max {
          max := s.max;
        }
        floor := floor + s.floor;
      }
      if seen < cfg.strokes + 1 {
        return Continue;
      }
      if max == 0 && floor == 0 {
        active := false;
        return Failed;
      }
      floorOnly[profile] := max == 0;
      measured[profile] := if floorOnly[profile] then 1 else max;
      profile := profile + 1;
      ResetProfile();
      if profile >= profiles {
        active := false;
        return Done;
      }
      return NextProfile;
    }
  }

  // ---------------------------------------------------------------------------
  //  A whole run of Auto SG
  // ---------------------------------------------------------------------------

  /** After `Begin` and the first `k` strokes of `ss`. */
  function Fed(cfg: AutoConfig, ss: seq<Stats>, k: nat): (a: Auto)
    requires k <= |ss|
    ensures a.Valid()
  {
    if k == 0 then Begin(MAX_PROFILES) else StrokeDone(cfg, Fed(cfg, ss, k - 1), ss[k - 1])
  }

  /** The strokes `n` profiles take. */
  function Strokes(cfg: AutoConfig, n: nat): nat {
    if n == 0 then 0 else Strokes(cfg, n - 1) + cfg.strokes + 1
  }

  lemma {:induction false} StrokesCounted(cfg: AutoConfig, ss: seq<Stats>, k: nat)
    requires k <= |ss| && Fed(cfg, ss, k).active
    ensures var a := Fed(cfg, ss, k);
            a.seen <= cfg.strokes && a.profiles == MAX_PROFILES && k == Strokes(cfg, a.profile) + a.seen
  {
    if k > 0 {
      StrokesCounted(cfg, ss, k - 1);
    }
  }

  /** `Done` comes after exactly (strokes + 1) strokes for each profile, no sooner and no later. */
  lemma DoneAfterEveryStroke(cfg: AutoConfig, ss: seq<Stats>, k: nat)
    requires k < |ss|
    ensures Result(cfg, Fed(cfg, ss, k), ss[k]) == Done ==> k + 1 == Strokes(cfg, MAX_PROFILES)
    ensures k + 1 == Strokes(cfg, MAX_PROFILES) ==> Result(cfg, Fed(cfg, ss, k), ss[k]) in {Done, Failed}
    ensures k + 1 > Strokes(cfg, MAX_PROFILES) ==> Result(cfg, Fed(cfg, ss, k), ss[k]) == Failed
  {
    hide Fed;
    var a := Fed(cfg, ss, k);
    if a.active {
      StrokesCounted(cfg, ss, k);
      ThreeProfiles(cfg, a.profile);
    }
  }

  lemma ThreeProfiles(cfg: AutoConfig, p: nat)
    requires p < MAX_PROFILES
    ensures Strokes(cfg, MAX_PROFILES) == Strokes(cfg, p) + cfg.strokes + 1 + Strokes(cfg, MAX_PROFILES - 1 - p)
    ensures p < MAX_PROFILES - 1 <==> Strokes(cfg, MAX_PROFILES - 1 - p) > 0
  {
    assert Strokes(cfg, 1) == cfg.strokes + 1;
    assert Strokes(cfg, 2) == Strokes(cfg, 1) + cfg.strokes + 1;
    assert Strokes(cfg, 3) == Strokes(cfg, 2) + cfg.strokes + 1;
  }

  /** Stroke `j` counts for profile `i`: fed while `i` was measured, not as its first. */
  predicate CountsFor(cfg: AutoConfig, ss: seq<Stats>, j: nat, i: nat)
    requires j < |ss|
  {
    Fed(cfg, ss, j).active && Fed(cfg, ss, j).profile == i && Fed(cfg, ss, j).seen > 0
  }

  /** What profile `i` has been found to reach so far. */
  function Reached(a: Auto, i: nat): nat
    requires a.Valid() && i < MAX_PROFILES
  {
    if i < a.profile then a.measured[i] else if i == a.profile then a.max else 0
  }

  lemma {:induction false} NoStrokeAbove(cfg: AutoConfig, ss: seq<Stats>, k: nat, j: nat, i: nat)
    requires j < k <= |ss| && i < MAX_PROFILES && CountsFor(cfg, ss, j, i)
    ensures var a := Fed(cfg, ss, k);
            && i <= a.profile && ss[j].max <= Reached(a, i)
            && (i < a.profile && a.floorOnly[i] ==> ss[j].max == 0)
  {
    hide Result;
    if j < k - 1 {
      NoStrokeAbove(cfg, ss, k - 1, j, i);
    }
  }

  /** What a profile reached, off the floor, some counted stroke reached. */
  lemma {:induction false} ReachedBySome(cfg: AutoConfig, ss: seq<Stats>, k: nat, i: nat)
    requires k <= |ss| && i < MAX_PROFILES && i <= Fed(cfg, ss, k).profile && Reached(Fed(cfg, ss, k), i) > 0
    requires i < Fed(cfg, ss, k).profile ==> !Fed(cfg, ss, k).floorOnly[i]
    ensures exists j :: 0 <= j < k && CountsFor(cfg, ss, j, i) && ss[j].max == Reached(Fed(cfg, ss, k), i)
  {
    hide Result;
    if k > 0 {
      var a, s := Fed(cfg, ss, k - 1), ss[k - 1];
      if a.active && i == a.profile && a.seen > 0 && s.max > a.max {
        assert CountsFor(cfg, ss, k - 1, i);
      } else {
        ReachedBySome(cfg, ss, k - 1, i);
      }
    }
  }

  /** A stroke that was read at all, on the floor or off it. */
  predicate Saw(s: Stats) {
    s.max > 0 || s.floor > 0
  }

  lemma {:induction false} SawSome(cfg: AutoConfig, ss: seq<Stats>, k: nat)
    requires k <= |ss| && Fed(cfg, ss, k).active
    ensures var a := Fed(cfg, ss, k);
            a.max > 0 || a.floor > 0 <==> exists j :: 0 <= j < k && CountsFor(cfg, ss, j, a.profile) && Saw(ss[j])
  {
    hide Result, CountsFor;
    if k > 0 {
      var a, b := Fed(cfg, ss, k - 1), Fed(cfg, ss, k);
      if b.profile == a.profile {
        SawSome(cfg, ss, k - 1);
        CountsNow(cfg, ss, k - 1);
      } else {
        forall j | 0 <= j < k
          ensures !CountsFor(cfg, ss, j, b.profile)
        {
          NotYet(cfg, ss, j, k);
        }
      }
    }
  }

  lemma CountsNow(cfg: AutoConfig, ss: seq<Stats>, k: nat)
    requires k < |ss| && Fed(cfg, ss, k).active
    ensures CountsFor(cfg, ss, k, Fed(cfg, ss, k).profile) <==> Fed(cfg, ss, k).seen > 0
  {
    hide Fed;
  }

  /** No stroke has counted for the profile that comes next. */
  lemma NotYet(cfg: AutoConfig, ss: seq<Stats>, j: nat, k: nat)
    requires j < k <= |ss| && Fed(cfg, ss, k).profile != Fed(cfg, ss, k - 1).profile && Fed(cfg, ss, k).active
    ensures !CountsFor(cfg, ss, j, Fed(cfg, ss, k).profile)
  {
    hide Result;
    if j < k - 1 && CountsFor(cfg, ss, j, Fed(cfg, ss, k).profile) {
      NoStrokeAbove(cfg, ss, k - 1, j, Fed(cfg, ss, k).profile);
    }
  }

  /** While it measures, Auto SG fails exactly when a profile has had its strokes and not one of
      them that counts was read at all; readings on the floor are a measurement. */
  lemma {:induction false} FailsExactly(cfg: AutoConfig, ss: seq<Stats>, k: nat)
    requires k < |ss| && Fed(cfg, ss, k).active
    ensures var a := Fed(cfg, ss, k);
            Result(cfg, a, ss[k]) == Failed <==>
              a.seen >= cfg.strokes && forall j :: 0 <= j <= k && CountsFor(cfg, ss, j, a.profile) ==> !Saw(ss[j])
  {
    hide Fed, CountsFor;
    SawSome(cfg, ss, k);
    CountsNow(cfg, ss, k);
  }

  /** What a finished stroke is answered with is what has become of the measuring: it goes on exactly
      after Continue and NextProfile, one profile further exactly after NextProfile and Done. */
  lemma ResultTells(cfg: AutoConfig, a: Auto, s: Stats)
    requires a.Valid() && a.active
    ensures var r, b := Result(cfg, a, s), StrokeDone(cfg, a, s);
            && (b.active <==> r in {Continue, NextProfile})
            && (b.profile == a.profile + 1 <==> r in {NextProfile, Done})
            && (r == NextProfile ==> b.profile < b.profiles) && (r == Done ==> b.profile >= b.profiles)
            && b.profiles == a.profiles && (b.profile != a.profile + 1 ==> b.profile == a.profile)
  {
  }

  /** How many of the first `k` strokes count for profile `i`. */
  function CountedFor(cfg: AutoConfig, ss: seq<Stats>, k: nat, i: nat): nat
    requires k <= |ss|
  {
    hide Fed;
    if k == 0 then 0 else CountedFor(cfg, ss, k - 1, i) + if CountsFor(cfg, ss, k - 1, i) then 1 else 0
  }

  lemma {:induction false} NoneCounted(cfg: AutoConfig, ss: seq<Stats>, k: nat, i: nat)
    requires k <= |ss| && forall j :: 0 <= j < k ==> !CountsFor(cfg, ss, j, i)
    ensures CountedFor(cfg, ss, k, i) == 0
  {
    hide CountsFor, Fed;
    if k > 0 {
      NoneCounted(cfg, ss, k - 1, i);
    }
  }

  /** The stroke number shown while Auto SG measures is the number of strokes that count so far. */
  lemma {:induction false} StrokeShown(cfg: AutoConfig, ss: seq<Stats>, k: nat)
    requires k <= |ss| && Fed(cfg, ss, k).active
    ensures Stroke(Fed(cfg, ss, k)) == CountedFor(cfg, ss, k, Fed(cfg, ss, k).profile)
  {
    hide Result, CountsFor;
    if k > 0 {
      var a, b := Fed(cfg, ss, k - 1), Fed(cfg, ss, k);
      if b.profile == a.profile {
        StrokeShown(cfg, ss, k - 1);
        CountsNow(cfg, ss, k - 1);
      } else {
        forall j | 0 <= j < k
          ensures !CountsFor(cfg, ss, j, b.profile)
        {
          NotYet(cfg, ss, j, k);
        }
        NoneCounted(cfg, ss, k, b.profile);
      }
    }
  }

  /** A trip is the margin above what was measured, as far as its limits go. */
  lemma TripWithinLimits(cfg: AutoConfig, a: Auto, i: nat)
    requires a.Valid() && i < MAX_PROFILES && cfg.tripMin <= cfg.tripMax
    ensures var t, want := TripFor(cfg, a, i), a.measured[i] + cfg.margin;
            cfg.tripMin <= t <= cfg.tripMax && (t == want <==> cfg.tripMin <= want <= cfg.tripMax)
  {
  }

  /** As shipped a trip of 1 or 2 is one at the floor; 0 is none at all. */
  lemma FloorTrips(trip: nat)
    ensures TripAtFloor(trip, FloorTripMax(SHIPPED)) <==> trip in {1, 2}
  {
  }

  /** More profiles than there are arrays for are not measured. */
  lemma BeginsWith(n: nat)
    ensures Begin(n).active && Begin(n).profile == 0 && Begin(n).profiles <= MAX_PROFILES
    ensures n <= MAX_PROFILES ==> Begin(n).profiles == n
  {
  }

  /** A profile marked floor-only has trip base 1; any other was really reached, off the floor. */
  ghost predicate Honest(a: Auto) {
    a.Valid()
    && (forall i :: 0 <= i < a.profile && i < MAX_PROFILES ==>
          if a.floorOnly[i] then a.measured[i] == 1 else SG_FLOOR < a.measured[i] <= SG_RESULT_MAX)
    && (a.max == 0 || SG_FLOOR < a.max <= SG_RESULT_MAX)
  }

  /** Statistics of StallGuard readings: a maximum is off the floor, and in the register's range. */
  ghost predicate FromReadings(ss: seq<Stats>) {
    forall j :: 0 <= j < |ss| ==> ss[j].max == 0 || SG_FLOOR < ss[j].max <= SG_RESULT_MAX
  }

  lemma {:induction false} MeasuredHonestly(cfg: AutoConfig, ss: seq<Stats>, k: nat)
    requires k <= |ss| && FromReadings(ss)
    ensures Honest(Fed(cfg, ss, k)) && Fed(cfg, ss, k).profile <= MAX_PROFILES
  {
    if k > 0 {
      MeasuredHonestly(cfg, ss, k - 1);
    }
  }

  /** When Auto SG is done, every profile has a trip; no reading of a stroke that counted for
      it exceeds that trip; and the trip is at the floor exactly if the profile never left it. */
  lemma TripsHold(ss: seq<Stats>, k: nat, i: nat)
    requires k < |ss| && i < MAX_PROFILES && FromReadings(ss)
    ensures var a := Fed(SHIPPED, ss, k + 1);
            Result(SHIPPED, Fed(SHIPPED, ss, k), ss[k]) == Done ==>
              && TripFor(SHIPPED, a, i) > 0
              && (TripAtFloor(TripFor(SHIPPED, a, i), FloorTripMax(SHIPPED)) <==> a.floorOnly[i])
              && forall j :: 0 <= j <= k && CountsFor(SHIPPED, ss, j, i) ==> ss[j].max <= TripFor(SHIPPED, a, i)
  {
    hide CountsFor, Reached, Fed, TripFor, TripAtFloor, Honest, Result;
    if Result(SHIPPED, Fed(SHIPPED, ss, k), ss[k]) != Done {
      return;
    }
    MeasuredHonestly(SHIPPED, ss, k + 1);
    var a := Fed(SHIPPED, ss, k + 1);
    DoneCloses(ss, k);
    TripOverMeasured(a, i);
    forall j | 0 <= j <= k && CountsFor(SHIPPED, ss, j, i)
      ensures ss[j].max <= a.measured[i]
    {
      NoStrokeAbove(SHIPPED, ss, k + 1, j, i);
      ReachedMeasured(a, i);
    }
  }

  /** The trip is no looser than it has to be: when Auto SG is done, the trip of a profile that
      left the floor is exactly the margin above the largest statistic that counted for it (as
      far as the trip's range goes), and that of any other the margin above the floor. */
  lemma {:induction false} TripsTight(ss: seq<Stats>, k: nat, i: nat)
    requires k < |ss| && i < MAX_PROFILES && FromReadings(ss)
    ensures var a := Fed(SHIPPED, ss, k + 1);
            var trip := TripFor(SHIPPED, a, i);
            Result(SHIPPED, Fed(SHIPPED, ss, k), ss[k]) == Done ==>
              if a.floorOnly[i] then trip == SG_FLOOR + SG_AUTO_MARGIN
              else
                && (forall j :: 0 <= j <= k && CountsFor(SHIPPED, ss, j, i) ==>
                      AtMost(ss[j].max + SG_AUTO_MARGIN, RUN_SG_TRIP_MAX) <= trip)
                && exists j :: 0 <= j <= k && CountsFor(SHIPPED, ss, j, i)
                               && trip == AtMost(ss[j].max + SG_AUTO_MARGIN, RUN_SG_TRIP_MAX)
  {
    hide CountsFor, Reached, Fed, TripFor, Honest, Result;
    if Result(SHIPPED, Fed(SHIPPED, ss, k), ss[k]) != Done {
      return;
    }
    MeasuredHonestly(SHIPPED, ss, k + 1);
    var a := Fed(SHIPPED, ss, k + 1);
    DoneCloses(ss, k);
    ReachedMeasured(a, i);
    MarginAboveMeasured(a, i);
    if !a.floorOnly[i] {
      forall j | 0 <= j <= k && CountsFor(SHIPPED, ss, j, i)
        ensures ss[j].max <= a.measured[i]
      {
        NoStrokeAbove(SHIPPED, ss, k + 1, j, i);
      }
      ReachedBySome(SHIPPED, ss, k + 1, i);
    }
  }

  function AtMost(n: nat, limit: nat): nat {
    if n < limit then n else limit
  }

  lemma MarginAboveMeasured(a: Auto, i: nat)
    requires Honest(a) && i < a.profile == MAX_PROFILES
    ensures TripFor(SHIPPED, a, i) == AtMost(a.measured[i] + SG_AUTO_MARGIN, RUN_SG_TRIP_MAX)
    ensures if a.floorOnly[i] then a.measured[i] == SG_FLOOR else a.measured[i] > SG_FLOOR
  {
  }

  lemma DoneCloses(ss: seq<Stats>, k: nat)
    requires k < |ss|
    ensures Result(SHIPPED, Fed(SHIPPED, ss, k), ss[k]) == Done ==> Fed(SHIPPED, ss, k + 1).profile == MAX_PROFILES
  {
    if Result(SHIPPED, Fed(SHIPPED, ss, k), ss[k]) == Done {
      StrokesCounted(SHIPPED, ss, k);
    }
  }

  lemma TripOverMeasured(a: Auto, i: nat)
    requires Honest(a) && i < a.profile == MAX_PROFILES
    ensures TripFor(SHIPPED, a, i) > 0 && a.measured[i] <= TripFor(SHIPPED, a, i)
    ensures TripAtFloor(TripFor(SHIPPED, a, i), FloorTripMax(SHIPPED)) <==> a.floorOnly[i]
  {
  }

  lemma ReachedMeasured(a: Auto, i: nat)
    requires a.Valid() && i < a.profile && i < MAX_PROFILES
    ensures Reached(a, i) == a.measured[i]
  {
  }

  /** A reading of a stroke its trip was measured on never adds to the jam count. */
  lemma TripNeverFires(stall: StallConfig, s: Stall, sgs: seq<nat>, trip: nat, n: nat)
    requires n < |sgs| && forall i :: 0 <= i < |sgs| ==> sgs[i] <= SG_RESULT_MAX
    requires StatsOf(sgs).max <= trip && trip > 0
    ensures !Fires(stall, s, sgs[n], trip) && Count(stall, s, sgs[n], trip).high <= s.high
  {
    StatsMean(sgs);
  }
}
