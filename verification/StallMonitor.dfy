/** Runtime jam counting (lib/autolee_logic/stall_monitor.h) and per-stroke StallGuard
    statistics (lib/autolee_logic/stroke_stats.h). */
module StallMonitor {

  // ---------------------------------------------------------------------------
  //  The sliding jam counter
  // ---------------------------------------------------------------------------

  datatype StallConfig = StallConfig(needed: nat, margin: nat, decay: nat) {
    /** The counters are 8 bits wide. */
    ghost predicate Valid() {
      needed > 0 && decay > 0 && needed + margin < 256 && decay < 256
    }
  }

  datatype Stall = Stall(high: nat, low: nat)

  const RESET := Stall(0, 0)

  function Count(cfg: StallConfig, s: Stall, sg: nat, trip: nat): Stall {
    if sg > trip then Stall(if s.high < cfg.needed + cfg.margin then s.high + 1 else s.high, 0)
    else if s.low + 1 >= cfg.decay then Stall(if s.high > 0 then s.high - 1 else 0, 0)
    else Stall(s.high, s.low + 1)
  }

  predicate Fires(cfg: StallConfig, s: Stall, sg: nat, trip: nat) {
    sg > trip && Count(cfg, s, sg, trip).high >= cfg.needed
  }

  class StallCounter {
    const cfg: StallConfig
    var highCount: nat
    var lowCount: nat

    ghost function View(): Stall
      reads this
    {
      Stall(highCount, lowCount)
    }

    ghost predicate Valid()
      reads this
    {
      cfg.Valid() && highCount < 256 && lowCount < cfg.decay
    }

    constructor (cfg: StallConfig)
      requires cfg.Valid()
      ensures Valid() && View() == RESET && this.cfg == cfg
    {
      this.cfg := cfg;
      highCount, lowCount := 0, 0;
    }

    method Reset()
      requires cfg.Valid()
      modifies this
      ensures Valid() && View() == RESET
    {
      highCount := 0;
      lowCount := 0;
    }

    /** Neither 8-bit counter wraps. */
    method Update(sg: nat, trip: nat) returns (jam: bool)
      requires Valid()
      modifies this
      ensures Valid() && View() == Count(cfg, old(View()), sg, trip)
      ensures jam == Fires(cfg, old(View()), sg, trip)
    {
      if sg > trip {
        if highCount < cfg.needed + cfg.margin {
          highCount := highCount + 1;
        }
        lowCount := 0;
        return highCount >= cfg.needed;
      }
      lowCount := lowCount + 1;
      if lowCount >= cfg.decay {
        lowCount := 0;
        if highCount > 0 {
          highCount := highCount - 1;
        }
      }
      return false;
    }
  }

  datatype Reading = Reading(sg: nat, trip: nat)

  function Tallied(cfg: StallConfig, rs: seq<Reading>): Stall {
    if |rs| == 0 then RESET
    else Count(cfg, Tallied(cfg, rs[..|rs| - 1]), rs[|rs| - 1].sg, rs[|rs| - 1].trip)
  }

  /** The last reading raises a jam. */
  predicate Jams(cfg: StallConfig, rs: seq<Reading>) {
    |rs| > 0 && Fires(cfg, Tallied(cfg, rs[..|rs| - 1]), rs[|rs| - 1].sg, rs[|rs| - 1].trip)
  }

  /** Some reading raised a jam. */
  predicate HasJammed(cfg: StallConfig, rs: seq<Reading>) {
    |rs| > 0 && (Jams(cfg, rs) || HasJammed(cfg, rs[..|rs| - 1]))
  }

  function Highs(rs: seq<Reading>): nat {
    if |rs| == 0 then 0
    else Highs(rs[..|rs| - 1]) + if rs[|rs| - 1].sg > rs[|rs| - 1].trip then 1 else 0
  }

  function Lows(rs: seq<Reading>): nat {
    if |rs| == 0 then 0
    else Lows(rs[..|rs| - 1]) + if rs[|rs| - 1].sg > rs[|rs| - 1].trip then 0 else 1
  }

  lemma {:induction false} CountAtMostHighs(cfg: StallConfig, rs: seq<Reading>)
    ensures Tallied(cfg, rs).high <= Highs(rs)
  {
    if |rs| > 0 {
      CountAtMostHighs(cfg, rs[..|rs| - 1]);
    }
  }

  /** No jam without enough high readings: a single spike is never one. */
  lemma JamNeedsHighs(cfg: StallConfig, rs: seq<Reading>)
    requires Jams(cfg, rs)
    ensures Highs(rs) >= cfg.needed && rs[|rs| - 1].sg > rs[|rs| - 1].trip
  {
    CountAtMostHighs(cfg, rs);
  }

  /** While nothing has fired, `d` high readings have decayed, each over `decay` low ones. */
  lemma {:induction false} Decayed(cfg: StallConfig, rs: seq<Reading>) returns (d: nat)
    requires cfg.Valid() && !HasJammed(cfg, rs)
    ensures var s := Tallied(cfg, rs);
            s.high < cfg.needed && s.high + d >= Highs(rs) && Times(d, cfg.decay) + s.low <= Lows(rs)
  {
    d := 0;
    if |rs| > 0 {
      d := Decayed(cfg, rs[..|rs| - 1]);
      var s, r := Tallied(cfg, rs[..|rs| - 1]), rs[|rs| - 1];
      if r.sg <= r.trip && s.low + 1 >= cfg.decay {
        d := d + 1;
      }
    }
  }

  function Times(n: nat, k: nat): nat {
    if n == 0 then 0 else Times(n - 1, k) + k
  }

  lemma {:induction false} TimesIsProduct(n: nat, k: nat)
    ensures Times(n, k) == n * k
  {
    if n > 0 {
      TimesIsProduct(n - 1, k);
    }
  }

  lemma {:induction false} QuotientBound(d: nat, k: nat, l: nat)
    requires k > 0 && d * k <= l
    ensures d <= l / k
  {
    var q := l / k;
    assert l < (q + 1) * k;
    if d > q {
      ProductGrows(q + 1, d, k);
    }
  }

  lemma ProductGrows(a: nat, b: nat, k: nat)
    requires a <= b
    ensures a * k <= b * k
  {
  }

  /** Enough high readings always fire: once the highs outnumber the decays their low
      readings allow by `needed`, a jam has been raised. */
  lemma EnoughHighsJam(cfg: StallConfig, rs: seq<Reading>)
    requires cfg.Valid() && Highs(rs) - Lows(rs) / cfg.decay >= cfg.needed
    ensures HasJammed(cfg, rs)
  {
    if !HasJammed(cfg, rs) {
      var d := Decayed(cfg, rs);
      TimesIsProduct(d, cfg.decay);
      QuotientBound(d, cfg.decay, Lows(rs));
    }
  }

  /** The last `n` readings are low. */
  predicate EndsLow(rs: seq<Reading>, n: nat) {
    n <= |rs| && forall i :: |rs| - n <= i < |rs| ==> rs[i].sg <= rs[i].trip
  }

  /** The last `n` readings are high. */
  predicate EndsHigh(rs: seq<Reading>, n: nat) {
    n <= |rs| && forall i :: |rs| - n <= i < |rs| ==> rs[i].sg > rs[i].trip
  }

  function Less(n: nat, k: nat): nat {
    if n < k then 0 else n - k
  }

  lemma {:induction false} CountInRange(cfg: StallConfig, rs: seq<Reading>)
    requires cfg.Valid()
    ensures var s := Tallied(cfg, rs); s.low < cfg.decay && s.high <= cfg.needed + cfg.margin
  {
    if |rs| > 0 {
      CountInRange(cfg, rs[..|rs| - 1]);
    }
  }

  /** Low readings after a high one: `n` of them take one off for every `decay` completed. */
  lemma {:induction false} LowsDecay(cfg: StallConfig, rs: seq<Reading>, n: nat)
    requires cfg.Valid() && EndsLow(rs, n)
    ensures var was, s := Tallied(cfg, rs[..|rs| - n]), Tallied(cfg, rs);
            exists k: nat :: s.high == Less(was.high, k) && Times(k, cfg.decay) + s.low == was.low + n
    decreases n
  {
    var m := |rs| - 1;
    if n == 0 {
      assert rs[..|rs|] == rs;
      assert Less(Tallied(cfg, rs).high, 0) == Tallied(cfg, rs).high && Times(0, cfg.decay) == 0;
    } else {
      assert rs[..m][..m - (n - 1)] == rs[..|rs| - n];
      LowsDecay(cfg, rs[..m], n - 1);
      var was, mid, s := Tallied(cfg, rs[..|rs| - n]), Tallied(cfg, rs[..m]), Tallied(cfg, rs);
      var k: nat :| mid.high == Less(was.high, k) && Times(k, cfg.decay) + mid.low == was.low + (n - 1);
      if mid.low + 1 >= cfg.decay {
        CountInRange(cfg, rs[..m]);
        assert s.high == Less(was.high, k + 1) && Times(k + 1, cfg.decay) + s.low == was.low + n;
      } else {
        assert s.high == Less(was.high, k) && Times(k, cfg.decay) + s.low == was.low + n;
      }
    }
  }

  /** Every `decay` low readings take one high reading off the count: `k` times as many take off
      exactly `k`, or all there were, whatever was counted before. */
  lemma {:induction false} LowsTakeOff(cfg: StallConfig, rs: seq<Reading>, k: nat)
    requires cfg.Valid() && EndsLow(rs, Times(k, cfg.decay))
    ensures var was, s := Tallied(cfg, rs[..|rs| - Times(k, cfg.decay)]), Tallied(cfg, rs);
            s.high == Less(was.high, k) && s.low == was.low
  {
    hide Tallied, EndsLow, Less;
    var n := Times(k, cfg.decay);
    EndsFit(rs, n);
    LowsDecay(cfg, rs, n);
    var was, s := Tallied(cfg, rs[..|rs| - n]), Tallied(cfg, rs);
    var j: nat :| s.high == Less(was.high, j) && Times(j, cfg.decay) + s.low == was.low + n;
    CountInRange(cfg, rs[..|rs| - n]);
    CountInRange(cfg, rs);
    SameMultiple(j, k, cfg.decay, s.low, was.low);
  }

  lemma EndsFit(rs: seq<Reading>, n: nat)
    requires EndsLow(rs, n)
    ensures n <= |rs|
  {
  }

  lemma {:induction false} SameMultiple(j: nat, k: nat, d: nat, x: nat, y: nat)
    requires x < d && y < d && Times(j, d) + x == Times(k, d) + y
    ensures j == k && x == y
  {
    if j > 0 && k > 0 {
      SameMultiple(j - 1, k - 1, d, x, y);
    }
  }

  /** High readings in a row add up one by one, to `margin` beyond what is needed. */
  lemma {:induction false} HighsAddUp(cfg: StallConfig, rs: seq<Reading>, n: nat)
    requires cfg.Valid() && n > 0 && EndsHigh(rs, n)
    ensures var was, s := Tallied(cfg, rs[..|rs| - n]), Tallied(cfg, rs);
            && s.low == 0
            && s.high == (if was.high + n < cfg.needed + cfg.margin then was.high + n else cfg.needed + cfg.margin)
    decreases n
  {
    var m := |rs| - 1;
    assert rs[..m][..m - (n - 1)] == rs[..|rs| - n];
    CountInRange(cfg, rs[..|rs| - n]);
    if n > 1 {
      HighsAddUp(cfg, rs[..m], n - 1);
    }
  }

  /** Between any two high readings lie at least `decay` low ones. */
  predicate Spaced(cfg: StallConfig, rs: seq<Reading>) {
    forall i, j :: 0 <= i < j < |rs| && rs[i].sg > rs[i].trip && rs[j].sg > rs[j].trip ==> j - i > cfg.decay
  }

  /** The last reading above its trip, if any, lies `Quiet(rs)` readings back. */
  function Quiet(rs: seq<Reading>): (n: nat)
    ensures n <= |rs| && EndsLow(rs, n)
    ensures n < |rs| ==> rs[|rs| - 1 - n].sg > rs[|rs| - 1 - n].trip
  {
    if |rs| == 0 || rs[|rs| - 1].sg > rs[|rs| - 1].trip then 0 else Quiet(rs[..|rs| - 1]) + 1
  }

  lemma {:induction false} SpacedCount(cfg: StallConfig, rs: seq<Reading>)
    requires cfg.Valid() && cfg.needed >= 2 && Spaced(cfg, rs)
    ensures var s := Tallied(cfg, rs);
            && s.high <= 1 && !HasJammed(cfg, rs)
            && (s.high == 1 ==> Quiet(rs) < |rs| && s.low == Quiet(rs) < cfg.decay)
  {
    if |rs| > 0 {
      SpacedCount(cfg, rs[..|rs| - 1]);
    }
  }

  /** Spikes never add up to a jam: with at least `decay` low readings between any two high
      ones, however many of them there are, none has raised one. */
  lemma SpikesNeverJam(cfg: StallConfig, rs: seq<Reading>)
    requires cfg.Valid() && cfg.needed >= 2 && Spaced(cfg, rs)
    ensures !HasJammed(cfg, rs)
  {
    SpacedCount(cfg, rs);
  }

  // ---------------------------------------------------------------------------
  //  Stroke statistics
  // ---------------------------------------------------------------------------

  const SG_FLOOR := 1
  const U16_MAX := 0xFFFF

  datatype Stats = Stats(min: nat, max: nat, floor: nat)

  const NO_STATS := Stats(U16_MAX, 0, 0)

  function Add(s: Stats, sg: nat): Stats {
    if sg <= SG_FLOOR then s.(floor := if s.floor < U16_MAX then s.floor + 1 else s.floor)
    else Stats(if sg < s.min then sg else s.min, if sg > s.max then sg else s.max, s.floor)
  }

  class StrokeStats {
    var min: nat
    var max: nat
    var floor: nat

    ghost function View(): Stats
      reads this
    {
      Stats(min, max, floor)
    }

    constructor ()
      ensures View() == NO_STATS
    {
      min, max, floor := U16_MAX, 0, 0;
    }

    method Reset()
      modifies this
      ensures View() == NO_STATS
    {
      min, max, floor := U16_MAX, 0, 0;
    }

    method AddReading(sg: nat) returns (newMax: bool)
      modifies this
      ensures View() == Add(old(View()), sg) && newMax == (max > old(max))
    {
      if sg <= SG_FLOOR {
        if floor < U16_MAX {
          floor := floor + 1;
        }
        return false;
      }
      if sg < min {
        min := sg;
      }
      if sg > max {
        max := sg;
        return true;
      }
      return false;
    }
  }

  function StatsOf(sgs: seq<nat>): Stats {
    if |sgs| == 0 then NO_STATS else Add(StatsOf(sgs[..|sgs| - 1]), sgs[|sgs| - 1])
  }

  function OnFloor(sgs: seq<nat>): nat {
    if |sgs| == 0 then 0 else OnFloor(sgs[..|sgs| - 1]) + if sgs[|sgs| - 1] <= SG_FLOOR then 1 else 0
  }

  /** The statistics of a stroke say what its readings were: the largest and smallest of
      those off the floor, and how many there were on it, as far as 16 bits go. */
  lemma {:induction false} StatsMean(sgs: seq<nat>)
    requires forall i :: 0 <= i < |sgs| ==> sgs[i] <= U16_MAX
    ensures var s := StatsOf(sgs);
            && (forall i :: 0 <= i < |sgs| ==> sgs[i] <= SG_FLOOR || s.min <= sgs[i] <= s.max)
            && ((s.max == 0 && s.min == U16_MAX) || (SG_FLOOR < s.min <= s.max && s.max in sgs && s.min in sgs))
            && (s.floor > 0 <==> exists i :: 0 <= i < |sgs| && sgs[i] <= SG_FLOOR)
            && s.floor == (if OnFloor(sgs) < U16_MAX then OnFloor(sgs) else U16_MAX)
  {
    if |sgs| > 0 {
      var init, last := sgs[..|sgs| - 1], sgs[|sgs| - 1];
      StatsMean(init);
      forall x | x in init
        ensures x in sgs
      {
      }
      if StatsOf(init).floor > 0 {
        var i :| 0 <= i < |init| && init[i] <= SG_FLOOR;
        assert sgs[i] <= SG_FLOOR;
      }
    }
  }
}
