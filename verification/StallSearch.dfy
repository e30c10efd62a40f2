/** The sensorless search for a hard stop: the polling loop of `move_until_stall`
    (main/motion/motion.cpp) and its helpers (lib/autolee_logic/calibration.h). */
module StallSearch {
  import opened Config
  import opened Numbers
  import opened SgBlanking

  const BASELINE_MS := 200
  const MAX_SAMPLES := 1000

  /** calIgnoreMs and calIgnoreDist at the calibration speed: 420 ms, 1024 steps. */
  const IGNORE_MS := CAL_SPEED_HZ * 1000 / CAL_ACCEL + 100
  const IGNORE_DIST := CAL_SPEED_HZ * CAL_SPEED_HZ / (2 * CAL_ACCEL) * 8 / 10

  /** One turn of the polling loop: the time and distance since the move began, the
      StallGuard reading, and whether the operator has asked to abort. */
  datatype Poll = Poll(elapsed: nat, dist: nat, sg: nat, abort: bool)

  datatype Outcome = Found | NotFound | Aborted

  /** What the loop carries from one turn to the next. */
  datatype Search = Search(
    started: bool, baseStart: nat, sum: nat, cnt: nat, ready: bool, trip: nat, early: nat, dyn: nat)

  const INIT := Search(false, 0, 0, 0, false, CAL_ABS_MIN, 0, 0)

  predicate Armed(p: Poll) {
    p.elapsed >= EARLY_MIN_TIME_MS && p.dist >= EARLY_MIN_MOVE_STEPS
  }

  predicate BaselineReady(p: Poll) {
    p.elapsed > IGNORE_MS && p.dist > IGNORE_DIST
  }

  function Average(sum: nat, cnt: nat): nat {
    if cnt == 0 then 0 else if sum / cnt < SG_RESULT_MAX then sum / cnt else SG_RESULT_MAX
  }

  function Confirm(count: nat, low: bool): nat {
    if low then count + 1 else 0
  }

  /** The early window looks at the reading. */
  function Early(s: Search, p: Poll): Search {
    if !s.ready && Armed(p) then s.(early := Confirm(s.early, p.sg <= EARLY_TRIP)) else s
  }

  function Started(s: Search, p: Poll): Search {
    if !s.started && BaselineReady(p) then s.(started := true, baseStart := p.elapsed, sum := 0, cnt := 0, dyn := 0)
    else s
  }

  /** The baseline takes the reading, and sets the dynamic trip once it has measured long enough. */
  function Baseline(s: Search, p: Poll): Search {
    if !s.started || s.ready then s
    else
      var t := if s.cnt >= MAX_SAMPLES then s else s.(sum := s.sum + p.sg, cnt := s.cnt + 1);
      if Since(p.elapsed, s.baseStart) >= BASELINE_MS && t.cnt > 0 then
        t.(trip := DynamicTrip(Average(t.sum, t.cnt), CAL_REL_DROP_Q8, CAL_ABS_MIN), ready := true, early := 0)
      else t
  }

  function Dynamic(s: Search, p: Poll): Search {
    if s.ready then s.(dyn := Confirm(s.dyn, p.sg <= s.trip)) else s
  }

  datatype Status = Running(s: Search) | Ended(outcome: Outcome)

  function Look(needed: nat, s: Search, p: Poll): Status {
    if p.abort then Ended(Aborted)
    else
      var e := Early(s, p);
      if !s.ready && Armed(p) && p.sg <= EARLY_TRIP && e.early >= needed then Ended(Found)
      else
        var d := Dynamic(Baseline(Started(e, p), p), p);
        if d.ready && p.sg <= d.trip && d.dyn >= needed then Ended(Found) else Running(d)
  }

  /** The loop after `n` turns. */
  function After(needed: nat, polls: seq<Poll>, n: nat): Status
    requires n <= |polls|
  {
    if n == 0 then Running(INIT)
    else
      var was := After(needed, polls, n - 1);
      if was.Running? then Look(needed, was.s, polls[n - 1]) else was
  }

  /** The move runs out after the last poll if nothing ended the search before. */
  function SearchOf(needed: nat, polls: seq<Poll>): Outcome {
    var r := After(needed, polls, |polls|);
    if r.Ended? then r.outcome else NotFound
  }

  class ConfirmCounter {
    const needed: nat
    var count: nat

    constructor (needed: nat)
      ensures this.needed == needed && count == 0
    {
      this.needed := needed;
      count := 0;
    }

    method Reset()
      modifies this
      ensures count == 0
    {
      count := 0;
    }

    method Feed(condition: bool) returns (hit: bool)
      modifies this
      ensures count == Confirm(old(count), condition) && hit == (condition && count >= needed)
    {
      if condition {
        count := count + 1;
        return count >= needed;
      }
      count := 0;
      return false;
    }
  }

  class BaselineAccumulator {
    var sum: nat
    var cnt: nat

    constructor ()
      ensures sum == cnt == 0
    {
      sum, cnt := 0, 0;
    }

    method Reset()
      modifies this
      ensures sum == cnt == 0
    {
      sum, cnt := 0, 0;
    }

    method Add(sg: nat)
      modifies this
      ensures if old(cnt) >= MAX_SAMPLES then sum == old(sum) && cnt == old(cnt)
              else sum == old(sum) + sg && cnt == old(cnt) + 1
    {
      if cnt >= MAX_SAMPLES {
        return;
      }
      sum := sum + sg;
      cnt := cnt + 1;
    }
  }

  /** The loop's locals. */
  class Searcher {
    const early: ConfirmCounter
    const dyn: ConfirmCounter
    const acc: BaselineAccumulator
    var started: bool
    var baseStart: nat
    var ready: bool
    var trip: nat

    ghost predicate Valid()
      reads this
    {
      early != dyn && early.needed == dyn.needed == CAL_HIT_CONFIRM
    }

    ghost function View(): Search
      reads this, early, dyn, acc
    {
      Search(started, baseStart, acc.sum, acc.cnt, ready, trip, early.count, dyn.count)
    }

    constructor ()
      ensures Valid() && View() == INIT && fresh(early) && fresh(dyn) && fresh(acc)
    {
      early := new ConfirmCounter(CAL_HIT_CONFIRM);
      dyn := new ConfirmCounter(CAL_HIT_CONFIRM);
      acc := new BaselineAccumulator();
      started, baseStart, ready, trip := false, 0, false, CAL_ABS_MIN;
    }

    method EarlyHit(p: Poll) returns (hit: bool)
      requires Valid()
      modifies early
      ensures View() == Early(old(View()), p)
      ensures hit == (!ready && Armed(p) && p.sg <= EARLY_TRIP && View().early >= CAL_HIT_CONFIRM)
    {
      hit := false;
      if !ready && Armed(p) {
        hit := early.Feed(p.sg <= EARLY_TRIP);
      }
    }

    method TakeBaseline(p: Poll)
      requires Valid()
      modifies this, early, dyn, acc
      ensures View() == Baseline(Started(old(View()), p), p)
    {
      hide DynamicTrip, Average, BaselineReady;
      if !started && BaselineReady(p) {
        started := true;
        baseStart := p.elapsed;
        acc.Reset();
        dyn.Reset();
      }
      if started && !ready {
        acc.Add(p.sg);
        if Since(p.elapsed, baseStart) >= BASELINE_MS && acc.cnt > 0 {
          trip := DynamicTrip(Average(acc.sum, acc.cnt), CAL_REL_DROP_Q8, CAL_ABS_MIN);
          ready := true;
          early.Reset();
        }
      }
    }

    method DynamicHit(p: Poll) returns (hit: bool)
      requires Valid()
      modifies dyn
      ensures View() == Dynamic(old(View()), p)
      ensures hit == (ready && p.sg <= trip && View().dyn >= CAL_HIT_CONFIRM)
    {
      hit := false;
      if ready {
        hit := dyn.Feed(p.sg <= trip);
      }
    }
  }

  method MoveUntilStall(polls: seq<Poll>) returns (outcome: Outcome)
    ensures outcome == SearchOf(CAL_HIT_CONFIRM, polls)
  {
    hide Early, Started, Baseline, Dynamic, After, SearchOf, Armed;
    AfterNone(CAL_HIT_CONFIRM, polls);
    var search := new Searcher();
    var i := 0;
    while i < |polls|
      invariant i <= |polls| && search.Valid()
      invariant fresh(search) && fresh(search.early) && fresh(search.dyn) && fresh(search.acc)
      invariant After(CAL_HIT_CONFIRM, polls, i) == Running(search.View())
    {
      var p := polls[i];
      AfterTurn(CAL_HIT_CONFIRM, polls, i);
      i := i + 1;
      Stays(CAL_HIT_CONFIRM, polls, i);
      if p.abort {
        return Aborted;
      }
      var hit := search.EarlyHit(p);
      if hit {
        return Found;
      }
      search.TakeBaseline(p);
      hit := search.DynamicHit(p);
      if hit {
        return Found;
      }
    }
    return NotFound;
  }

  lemma AfterNone(needed: nat, polls: seq<Poll>)
    ensures After(needed, polls, 0) == Running(INIT)
    ensures After(needed, polls, |polls|).Running? ==> SearchOf(needed, polls) == NotFound
  {
  }

  lemma AfterTurn(needed: nat, polls: seq<Poll>, n: nat)
    requires n < |polls| && After(needed, polls, n).Running?
    ensures After(needed, polls, n + 1) == Look(needed, After(needed, polls, n).s, polls[n])
  {
  }

  lemma {:induction false} Stays(needed: nat, polls: seq<Poll>, n: nat)
    requires n <= |polls|
    ensures After(needed, polls, n).Ended? ==> After(needed, polls, |polls|) == After(needed, polls, n)
    ensures After(needed, polls, n).Ended? ==> SearchOf(needed, polls) == After(needed, polls, n).outcome
    decreases |polls| - n
  {
    if n < |polls| {
      Stays(needed, polls, n + 1);
    }
  }

  // ---------------------------------------------------------------------------
  //  The search is never blind
  // ---------------------------------------------------------------------------

  /** Low readings made towards a hit. */
  function LowsTowardsHit(needed: nat, s: Search): int {
    if s.ready then needed - 2 + s.dyn else s.early
  }

  ghost predicate Low(p: Poll) {
    p.elapsed >= 50 && p.dist >= 200 && p.sg <= CAL_ABS_MIN && !p.abort
  }

  /** The dynamic trip exists only once a baseline was started, and is never below the floor. */
  ghost predicate Sound(s: Search) {
    s.trip >= CAL_ABS_MIN && (s.ready ==> s.started)
  }

  lemma StaysSound(needed: nat, s: Search, p: Poll)
    requires Sound(s) && Look(needed, s, p).Running?
    ensures Sound(Look(needed, s, p).s)
  {
  }

  /** A low reading ends the search or brings it closer, also across the hand-over from the
      early window to the dynamic trip. */
  lemma LowCounts(needed: nat, s: Search, p: Poll)
    requires needed >= 2 && Sound(s) && Low(p)
    ensures match Look(needed, s, p)
            case Ended(r) => r == Found
            case Running(t) =>
              Sound(t) && LowsTowardsHit(needed, s) + 1 <= LowsTowardsHit(needed, t) < 2 * needed - 2
  {
    hide DynamicTrip, Average, BaselineReady;
    var b := Baseline(Started(Early(s, p), p), p);
    BaselineTrip(Started(Early(s, p), p), p);
    assert b.ready ==> Dynamic(b, p).dyn == b.dyn + 1;
  }

  lemma BaselineTrip(s: Search, p: Poll)
    requires s.trip >= CAL_ABS_MIN
    ensures Baseline(s, p).trip >= CAL_ABS_MIN
  {
  }

  lemma {:induction false} AlwaysSound(needed: nat, polls: seq<Poll>, n: nat)
    requires n <= |polls| && After(needed, polls, n).Running?
    ensures Sound(After(needed, polls, n).s)
  {
    hide Look;
    if n > 0 {
      AlwaysSound(needed, polls, n - 1);
      StaysSound(needed, After(needed, polls, n - 1).s, polls[n - 1]);
    }
  }

  lemma {:induction false} LowRun(needed: nat, polls: seq<Poll>, a: nat, k: nat)
    requires needed >= 2 && a + k <= |polls| && After(needed, polls, a).Running?
    requires forall i :: a <= i < a + k ==> Low(polls[i])
    ensures match After(needed, polls, a + k)
            case Ended(r) => r == Found
            case Running(s) =>
              Sound(s) && LowsTowardsHit(needed, s) >= k && (k > 0 ==> LowsTowardsHit(needed, s) < 2 * needed - 2)
  {
    hide Look, Low;
    if k == 0 {
      AlwaysSound(needed, polls, a);
    } else {
      LowRun(needed, polls, a, k - 1);
      var was := After(needed, polls, a + k - 1);
      if was.Running? {
        LowCounts(needed, was.s, polls[a + k - 1]);
      }
    }
  }

  /** From the moment the early window arms, any 2 * needed - 2 consecutive low readings end
      the search with a hit: two of them, as shipped. */
  lemma NeverBlind(needed: nat, polls: seq<Poll>, a: nat)
    requires needed >= 2 && a + 2 * needed - 2 <= |polls| && After(needed, polls, a).Running?
    requires forall i :: a <= i < a + 2 * needed - 2 ==> Low(polls[i])
    ensures SearchOf(needed, polls) == Found
  {
    hide Look, Low;
    LowRun(needed, polls, a, 2 * needed - 2);
    Stays(needed, polls, a + 2 * needed - 2);
  }

  // ---------------------------------------------------------------------------
  //  ... and never jumps to a conclusion
  // ---------------------------------------------------------------------------

  /** Time and distance of one move only grow. */
  ghost predicate Monotone(polls: seq<Poll>) {
    forall i, j :: 0 <= i < j < |polls| ==> polls[i].elapsed <= polls[j].elapsed && polls[i].dist <= polls[j].dist
  }

  /** The last `k` of the first `n` readings are at or below `trip`. */
  ghost predicate AllLow(polls: seq<Poll>, n: nat, k: nat, trip: nat) {
    k <= n <= |polls| && forall i :: n - k <= i < n ==> polls[i].sg <= trip
  }

  ghost predicate Counted(polls: seq<Poll>, n: nat, s: Search) {
    && AllLow(polls, n, s.early, EARLY_TRIP) && AllLow(polls, n, s.dyn, s.trip)
    && (s.early > 0 ==> n > 0 && Armed(polls[n - 1]) && !s.ready) && (!s.ready ==> s.dyn == 0)
  }

  lemma CountedStep(needed: nat, polls: seq<Poll>, n: nat, s: Search)
    requires n < |polls| && Monotone(polls) && Counted(polls, n, s)
    ensures match Look(needed, s, polls[n])
            case Running(t) => Counted(polls, n + 1, t)
            case Ended(r) => r == Found && needed > 0 ==>
              AllLow(polls, n + 1, needed, EARLY_TRIP) || AllLow(polls, n + 1, needed, Trip(s, polls[n]))
  {
    hide DynamicTrip;
    var p := polls[n];
    if !p.abort {
      var e := Early(s, p);
      assert AllLow(polls, n + 1, e.early, EARLY_TRIP);
      if !s.ready && Armed(p) && p.sg <= EARLY_TRIP && e.early >= needed {
        assert AllLow(polls, n + 1, needed, EARLY_TRIP);
      } else {
        var d := Dynamic(Baseline(Started(e, p), p), p);
        assert AllLow(polls, n + 1, d.dyn, d.trip);
        if d.ready && p.sg <= d.trip && d.dyn >= needed {
          assert AllLow(polls, n + 1, needed, d.trip);
        }
      }
    }
  }

  /** The dynamic trip in force when poll `p` is judged. */
  function Trip(s: Search, p: Poll): nat {
    Baseline(Started(Early(s, p), p), p).trip
  }

  lemma {:induction false} CountedAfter(needed: nat, polls: seq<Poll>, n: nat)
    requires n <= |polls| && Monotone(polls) && After(needed, polls, n).Running?
    ensures Counted(polls, n, After(needed, polls, n).s)
  {
    hide Look, Counted, Monotone;
    if n == 0 {
      NothingCounted(polls);
    } else {
      CountedAfter(needed, polls, n - 1);
      CountedStep(needed, polls, n - 1, After(needed, polls, n - 1).s);
    }
  }

  lemma NothingCounted(polls: seq<Poll>)
    ensures Counted(polls, 0, INIT)
  {
  }

  /** A hit is `needed` consecutive readings, up to the one that ended the search, all at or
      below the trip in force. */
  lemma HitIsConfirmed(needed: nat, polls: seq<Poll>, n: nat)
    requires n < |polls| && Monotone(polls) && needed > 0
    requires After(needed, polls, n).Running? && After(needed, polls, n + 1) == Ended(Found)
    ensures AllLow(polls, n + 1, needed, EARLY_TRIP)
            || AllLow(polls, n + 1, needed, Trip(After(needed, polls, n).s, polls[n]))
  {
    hide Look, Counted, Monotone, AllLow, Trip;
    CountedAfter(needed, polls, n);
    CountedStep(needed, polls, n, After(needed, polls, n).s);
  }

  // ---------------------------------------------------------------------------
  //  ... nor stops in free air: the trip lies below what was measured
  // ---------------------------------------------------------------------------

  /** More than 420 ms and 1024 steps into the move. */
  predicate PastStart(p: Poll) {
    p.elapsed > 420 && p.dist > 1024
  }

  /** The baseline starts with poll `b`, the first past the ignored time and distance. */
  ghost predicate StartsAt(polls: seq<Poll>, b: nat) {
    b < |polls| && PastStart(polls[b]) && forall i :: 0 <= i < b ==> !PastStart(polls[i])
  }

  /** ... is still being measured after poll `n - 1` ... */
  ghost predicate Measuring(polls: seq<Poll>, b: nat, n: nat) {
    StartsAt(polls, b) && b < n <= |polls|
    && forall i :: b <= i < n ==> Since(polls[i].elapsed, polls[b].elapsed) < BASELINE_MS
  }

  /** ... and is complete with poll `e`, the first BASELINE_MS later. */
  ghost predicate CompleteAt(polls: seq<Poll>, b: nat, e: nat) {
    Measuring(polls, b, e) && e < |polls| && Since(polls[e].elapsed, polls[b].elapsed) >= BASELINE_MS
  }

  function SumOf(polls: seq<Poll>, b: nat, n: nat): nat
    requires b <= n <= |polls|
  {
    if n == b then 0 else SumOf(polls, b, n - 1) + polls[n - 1].sg
  }

  /** Of the polls `b..n` the first MAX_SAMPLES are taken. */
  function Taken(b: nat, n: nat): nat
    requires b <= n
  {
    if n - b < MAX_SAMPLES then n - b else MAX_SAMPLES
  }

  /** The mean of the readings of the baseline, within the register's range. */
  function Mean(polls: seq<Poll>, b: nat, e: nat): nat
    requires b <= e < |polls|
  {
    var m := SumOf(polls, b, b + Taken(b, e + 1)) / Taken(b, e + 1);
    if m < SG_RESULT_MAX then m else SG_RESULT_MAX
  }

  /** A reading that has dropped to 235/256 of the mean, or to the floor. */
  predicate Dropped(polls: seq<Poll>, b: nat, e: nat, sg: nat)
    requires b <= e < |polls|
  {
    256 * sg <= CAL_REL_DROP_Q8 * Mean(polls, b, e) || sg <= CAL_ABS_MIN
  }

  lemma {:induction false} NotStarted(needed: nat, polls: seq<Poll>, n: nat)
    requires n <= |polls| && After(needed, polls, n).Running? && forall i :: 0 <= i < n ==> !PastStart(polls[i])
    ensures var s := After(needed, polls, n).s; !s.started && !s.ready
  {
    hide Armed, DynamicTrip, Average;
    if n > 0 {
      NotStarted(needed, polls, n - 1);
    }
  }

  lemma BaselineFirst(needed: nat, s: Search, p: Poll)
    requires !s.started && !s.ready && PastStart(p) && Look(needed, s, p).Running?
    ensures var d := Look(needed, s, p).s;
            d.started && !d.ready && d.baseStart == p.elapsed && d.cnt == 1 && d.sum == p.sg
  {
    hide Armed, DynamicTrip, Average;
  }

  lemma BaselineNext(needed: nat, s: Search, p: Poll)
    requires s.started && !s.ready && Since(p.elapsed, s.baseStart) < BASELINE_MS && Look(needed, s, p).Running?
    ensures var d := Look(needed, s, p).s;
            && d.started && !d.ready && d.baseStart == s.baseStart
            && d.cnt == (if s.cnt >= MAX_SAMPLES then s.cnt else s.cnt + 1)
            && d.sum == s.sum + if s.cnt >= MAX_SAMPLES then 0 else p.sg
  {
    hide Armed, DynamicTrip, Average, BaselineReady;
  }

  lemma FirstTaken(polls: seq<Poll>, b: nat)
    requires b < |polls|
    ensures Taken(b, b + 1) == 1 && SumOf(polls, b, b + 1) == polls[b].sg
  {
    assert SumOf(polls, b, b + 1) == SumOf(polls, b, b) + polls[b].sg;
  }

  /** While the baseline is measured, the sum and the count are those of its readings. */
  lemma {:induction false} SumTaken(needed: nat, polls: seq<Poll>, b: nat, n: nat)
    requires Measuring(polls, b, n) && After(needed, polls, n).Running?
    ensures var s := After(needed, polls, n).s;
            && s.started && !s.ready && s.baseStart == polls[b].elapsed
            && s.cnt == Taken(b, n) && s.sum == SumOf(polls, b, b + Taken(b, n))
  {
    hide Look, Since, SumOf, Taken, PastStart;
    if n == b + 1 {
      NotStarted(needed, polls, b);
      BaselineFirst(needed, After(needed, polls, b).s, polls[b]);
      FirstTaken(polls, b);
    } else {
      SumTaken(needed, polls, b, n - 1);
      BaselineNext(needed, After(needed, polls, n - 1).s, polls[n - 1]);
      NextTaken(polls, b, n - 1);
    }
  }

  lemma Floored(x: nat, sg: nat)
    requires x < 0x100_0000
    ensures sg <= (x / 256) % 0x1_0000 <==> 256 * sg <= x
  {
  }

  lemma DropTrip(mean: nat, sg: nat)
    requires mean <= SG_RESULT_MAX
    ensures sg <= DynamicTrip(mean, CAL_REL_DROP_Q8, CAL_ABS_MIN) <==>
              256 * sg <= CAL_REL_DROP_Q8 * mean || sg <= CAL_ABS_MIN
  {
    hide DynamicTrip;
    var x := 235 * mean;
    Floored(x, sg);
    assert DynamicTrip(mean, CAL_REL_DROP_Q8, CAL_ABS_MIN)
        == if (x / 256) % 0x1_0000 > CAL_ABS_MIN then (x / 256) % 0x1_0000 else CAL_ABS_MIN by {
      TripOf(mean);
    }
  }

  lemma TripOf(mean: nat)
    ensures var rel := (235 * mean / 256) % 0x1_0000;
            DynamicTrip(mean, CAL_REL_DROP_Q8, CAL_ABS_MIN) == if rel > CAL_ABS_MIN then rel else CAL_ABS_MIN
  {
    assert mean * CAL_REL_DROP_Q8 == 235 * mean;
  }

  lemma NextTaken(polls: seq<Poll>, b: nat, e: nat)
    requires b <= e < |polls|
    ensures var t := Taken(b, e);
            && Taken(b, e + 1) == (if t >= MAX_SAMPLES then t else t + 1)
            && SumOf(polls, b, b + Taken(b, e + 1))
               == SumOf(polls, b, b + t) + if t >= MAX_SAMPLES then 0 else polls[e].sg
  {
  }

  lemma MeanIsAverage(polls: seq<Poll>, b: nat, e: nat)
    requires b <= e < |polls|
    ensures Mean(polls, b, e) == Average(SumOf(polls, b, b + Taken(b, e + 1)), Taken(b, e + 1))
  {
    hide SumOf;
  }

  /** From poll `e` on every reading is held against the trip the baseline gives. */
  lemma BaselineDone(needed: nat, polls: seq<Poll>, b: nat, e: nat)
    requires CompleteAt(polls, b, e) && After(needed, polls, e).Running?
    ensures var s := After(needed, polls, e).s;
            var d := Baseline(Started(Early(s, polls[e]), polls[e]), polls[e]);
            && !s.ready && d.ready && d.dyn == s.dyn
            && d.trip == DynamicTrip(Mean(polls, b, e), CAL_REL_DROP_Q8, CAL_ABS_MIN)
  {
    hide Armed, DynamicTrip, Average, Mean, SumOf, Taken;
    SumTaken(needed, polls, b, e);
    NextTaken(polls, b, e);
    MeanIsAverage(polls, b, e);
    TakenSome(b, e);
  }

  lemma TakenSome(b: nat, e: nat)
    requires b <= e
    ensures Taken(b, e + 1) > 0
  {
  }

  lemma {:induction false} TripInForce(needed: nat, polls: seq<Poll>, b: nat, e: nat, n: nat)
    requires CompleteAt(polls, b, e) && e < n <= |polls| && After(needed, polls, n).Running?
    ensures var s := After(needed, polls, n).s;
            s.ready && s.trip == DynamicTrip(Mean(polls, b, e), CAL_REL_DROP_Q8, CAL_ABS_MIN)
  {
    hide Armed, DynamicTrip, Average, Mean, Measuring;
    if n == e + 1 {
      BaselineDone(needed, polls, b, e);
    } else {
      TripInForce(needed, polls, b, e, n - 1);
    }
  }

  /** The trip that poll `n` is judged by, if the baseline is complete. */
  lemma {:induction false} Judged(needed: nat, polls: seq<Poll>, b: nat, e: nat, n: nat)
    requires CompleteAt(polls, b, e) && e <= n < |polls| && After(needed, polls, n).Running?
    ensures var s, p := After(needed, polls, n).s, polls[n];
            var d := Baseline(Started(Early(s, p), p), p);
            d.ready && (p.sg <= d.trip <==> Dropped(polls, b, e, p.sg))
  {
    hide Armed, DynamicTrip, Average, Mean, Measuring;
    EndsInside(polls, b, e);
    MeanInRange(polls, b, e);
    DropTrip(Mean(polls, b, e), polls[n].sg);
    if n == e {
      BaselineDone(needed, polls, b, e);
    } else {
      TripInForce(needed, polls, b, e, n);
    }
  }

  lemma EndsInside(polls: seq<Poll>, b: nat, e: nat)
    requires CompleteAt(polls, b, e)
    ensures b < e < |polls|
  {
  }

  lemma MeanInRange(polls: seq<Poll>, b: nat, e: nat)
    requires b <= e < |polls|
    ensures Mean(polls, b, e) <= SG_RESULT_MAX
  {
    hide SumOf;
  }

  /** `polls` holds up at `n`: its reading is off the floor, or taken in the first 50 ms or 200 steps of
      the move, and, once the baseline is complete, has not dropped from it. */
  ghost predicate HoldsUp(polls: seq<Poll>, n: nat)
    requires n < |polls|
  {
    && !polls[n].abort && (polls[n].sg > CAL_ABS_MIN || polls[n].elapsed < 50 || polls[n].dist < 200)
    && forall b: nat, e: nat :: CompleteAt(polls, b, e) && b <= e <= n ==> !Dropped(polls, b, e, polls[n].sg)
  }

  /** Either no baseline has started, or one is being measured, or one is complete. */
  lemma {:induction false} Classified(polls: seq<Poll>, n: nat)
    requires n <= |polls|
    ensures || (forall i :: 0 <= i < n ==> !PastStart(polls[i]))
            || (exists b: nat :: Measuring(polls, b, n))
            || (exists b: nat, e: nat :: e < n && CompleteAt(polls, b, e))
  {
    hide PastStart;
    if n > 0 {
      var m: nat := n - 1;
      Classified(polls, m);
      if forall i :: 0 <= i < m ==> !PastStart(polls[i]) {
        assert PastStart(polls[m]) ==> Measuring(polls, m, n);
      } else if b: nat :| Measuring(polls, b, m) {
        if Since(polls[m].elapsed, polls[b].elapsed) >= BASELINE_MS {
          assert CompleteAt(polls, b, m);
        } else {
          assert Measuring(polls, b, n);
        }
      }
    }
  }

  /** A reading that holds up never ends the search. */
  lemma NoStopOnHold(needed: nat, polls: seq<Poll>, n: nat)
    requires n < |polls| && After(needed, polls, n).Running? && HoldsUp(polls, n)
    ensures After(needed, polls, n + 1).Running?
  {
    hide DynamicTrip, Average, CompleteAt, Dropped;
    var s, p := After(needed, polls, n).s, polls[n];
    var d := Baseline(Started(Early(s, p), p), p);
    if d.ready {
      var b, e := CompletedBy(needed, polls, n);
      Judged(needed, polls, b, e, n);
    }
  }

  lemma CompletedBy(needed: nat, polls: seq<Poll>, n: nat) returns (b: nat, e: nat)
    requires n < |polls| && After(needed, polls, n).Running?
    requires var s, p := After(needed, polls, n).s, polls[n]; Baseline(Started(Early(s, p), p), p).ready
    ensures CompleteAt(polls, b, e) && b <= e <= n
  {
    hide Armed, DynamicTrip, Average, Measuring, CompleteAt, SumOf, Taken;
    Classified(polls, n);
    if c: nat :| Measuring(polls, c, n) {
      b, e := c, n;
      SumTaken(needed, polls, b, n);
      EndsNow(polls, b, n);
    } else if c: nat, d: nat :| d < n && CompleteAt(polls, c, d) {
      b, e := c, d;
      EndsInside(polls, b, e);
    } else {
      NotStarted(needed, polls, n);
    }
  }

  lemma EndsNow(polls: seq<Poll>, b: nat, n: nat)
    requires Measuring(polls, b, n) && n < |polls|
    ensures b < n && (Since(polls[n].elapsed, polls[b].elapsed) >= BASELINE_MS ==> CompleteAt(polls, b, n))
  {
  }

  lemma {:induction false} HeldSoFar(needed: nat, polls: seq<Poll>, n: nat)
    requires n <= |polls| && forall i :: 0 <= i < n ==> HoldsUp(polls, i)
    ensures After(needed, polls, n).Running?
  {
    hide Look, HoldsUp;
    if n > 0 {
      HeldSoFar(needed, polls, n - 1);
      NoStopOnHold(needed, polls, n - 1);
    }
  }

  /** Free air is no stop: if, but for the very start of the move, no reading falls to the floor before
      the baseline is complete, and none drops to 235/256 of its mean after that, the move runs out
      without a hit. */
  lemma NoFalseStop(needed: nat, polls: seq<Poll>)
    requires forall i :: 0 <= i < |polls| ==> HoldsUp(polls, i)
    ensures SearchOf(needed, polls) == NotFound
  {
    hide Look, HoldsUp;
    HeldSoFar(needed, polls, |polls|);
  }

  lemma {:induction false} SteadySum(polls: seq<Poll>, c: nat, b: nat, n: nat)
    requires b <= n <= |polls| && forall i :: 0 <= i < |polls| ==> polls[i].sg == c
    ensures SumOf(polls, b, n) == c * (n - b)
  {
    if n > b {
      SteadySum(polls, c, b, n - 1);
    }
  }

  lemma SteadyHolds(polls: seq<Poll>, c: nat, b: nat, e: nat)
    requires b <= e < |polls| && CAL_ABS_MIN < c <= SG_RESULT_MAX && forall i :: 0 <= i < |polls| ==> polls[i].sg == c
    ensures Mean(polls, b, e) == c && !Dropped(polls, b, e, c)
  {
    var t := Taken(b, e + 1);
    SteadySum(polls, c, b, b + t);
    assert c * t / t == c by { WholeQuotient(c, t); }
  }

  lemma TimesMore(a: nat, b: nat, k: nat)
    requires a <= b
    ensures a * k <= b * k
  {
  }

  lemma {:induction false} WholeQuotient(c: nat, t: nat)
    requires t > 0
    ensures c * t / t == c
  {
    var n := c * t;
    var q := n / t;
    assert q * t <= n < (q + 1) * t;
    if q < c {
      TimesMore(q + 1, c, t);
    } else if q > c {
      TimesMore(c + 1, q, t);
    }
  }

  /** In particular, readings that never change end no search. */
  lemma SteadyNotFound(needed: nat, polls: seq<Poll>, c: nat)
    requires CAL_ABS_MIN < c <= SG_RESULT_MAX
    requires forall i :: 0 <= i < |polls| ==> polls[i].sg == c && !polls[i].abort
    ensures SearchOf(needed, polls) == NotFound
  {
    forall i | 0 <= i < |polls|
      ensures HoldsUp(polls, i)
    {
      forall b: nat, e: nat | CompleteAt(polls, b, e) && b <= e <= i
        ensures !Dropped(polls, b, e, polls[i].sg)
      {
        SteadyHolds(polls, c, b, e);
      }
    }
    NoFalseStop(needed, polls);
  }

  /** A reading that has dropped counts towards a hit. */
  lemma {:induction false} DropStep(needed: nat, polls: seq<Poll>, b: nat, e: nat, n: nat)
    requires CompleteAt(polls, b, e) && e <= n < |polls| && After(needed, polls, n).Running? && !polls[n].abort
    requires b <= e && Dropped(polls, b, e, polls[n].sg)
    ensures match After(needed, polls, n + 1)
            case Ended(r) => r == Found
            case Running(t) => t.dyn == After(needed, polls, n).s.dyn + 1 < needed
  {
    hide Armed, DynamicTrip, Average, CompleteAt, Dropped;
    Judged(needed, polls, b, e, n);
    ReadyStarted(needed, polls, b, e, n);
  }

  lemma ReadyStarted(needed: nat, polls: seq<Poll>, b: nat, e: nat, n: nat)
    requires CompleteAt(polls, b, e) && e <= n < |polls| && After(needed, polls, n).Running?
    ensures After(needed, polls, n).s.started
  {
    hide Armed, DynamicTrip, Average, Mean;
    if n == e {
      SumTaken(needed, polls, b, e);
    } else {
      TripInForce(needed, polls, b, e, n);
      AlwaysSound(needed, polls, n);
    }
  }

  lemma {:induction false} DropRun(needed: nat, polls: seq<Poll>, b: nat, e: nat, a: nat, k: nat)
    requires CompleteAt(polls, b, e) && b <= e <= a && a + k <= |polls| && After(needed, polls, a).Running?
    requires forall i :: a <= i < a + k ==> !polls[i].abort && Dropped(polls, b, e, polls[i].sg)
    ensures match After(needed, polls, a + k)
            case Ended(r) => r == Found
            case Running(t) => t.dyn >= k && (k > 0 ==> t.dyn < needed)
  {
    hide Look, CompleteAt, Dropped;
    if k > 0 {
      DropRun(needed, polls, b, e, a, k - 1);
      if After(needed, polls, a + k - 1).Running? {
        DropStep(needed, polls, b, e, a + k - 1);
      } else {
        EndedStays(needed, polls, a + k - 1);
      }
    }
  }

  lemma EndedStays(needed: nat, polls: seq<Poll>, n: nat)
    requires n < |polls| && After(needed, polls, n).Ended?
    ensures After(needed, polls, n + 1) == After(needed, polls, n)
  {
  }

  /** A stop is found: once the baseline is complete, `needed` readings in a row at or below 235/256
      of its mean (or at the floor) end the search with a hit. */
  lemma DropFound(needed: nat, polls: seq<Poll>, b: nat, e: nat, a: nat)
    requires CompleteAt(polls, b, e) && b <= e <= a && a + needed <= |polls| && needed > 0
    requires After(needed, polls, a).Running?
    requires forall i :: a <= i < a + needed ==> !polls[i].abort && Dropped(polls, b, e, polls[i].sg)
    ensures SearchOf(needed, polls) == Found
  {
    hide Look, CompleteAt, Dropped;
    DropRun(needed, polls, b, e, a, needed);
    Stays(needed, polls, a + needed);
  }

  /** A search is aborted exactly if an abort is asked for before it has ended. */
  lemma {:induction false} AbortedExactly(needed: nat, polls: seq<Poll>, n: nat)
    requires n <= |polls|
    ensures After(needed, polls, n) == Ended(Aborted) <==>
              exists i :: 0 <= i < n && After(needed, polls, i).Running? && polls[i].abort
  {
    hide Early, Started, Baseline, Dynamic, Armed;
    if n > 0 {
      AbortedExactly(needed, polls, n - 1);
      var was := After(needed, polls, n - 1);
      if was.Running? && polls[n - 1].abort {
        assert After(needed, polls, n) == Ended(Aborted);
      } else if was.Running? {
        RunningSoFar(needed, polls, n - 1);
      }
    }
  }

  lemma {:induction false} RunningSoFar(needed: nat, polls: seq<Poll>, n: nat)
    requires n <= |polls| && After(needed, polls, n).Running?
    ensures forall i :: 0 <= i < n ==> After(needed, polls, i).Running? && !polls[i].abort
  {
    hide Early, Started, Baseline, Dynamic, Armed;
    if n > 0 {
      RunningSoFar(needed, polls, n - 1);
    }
  }

  /** The endpoints found are far enough apart to be two stops. */
  predicate TravelPlausible(rawUp: int, rawDown: int, guard: int) {
    rawDown - rawUp >= 2 * guard
  }

  /** Plausible is a matter of how far DOWN lies beyond UP, wherever they are. */
  lemma PlausibleAnywhere(rawUp: int, rawDown: int, guard: int, shift: int)
    ensures TravelPlausible(rawUp + shift, rawDown + shift, guard) == TravelPlausible(rawUp, rawDown, guard)
    ensures TravelPlausible(0, rawDown - rawUp, guard) == TravelPlausible(rawUp, rawDown, guard)
  {
  }
}
