/** Pulse generation of main/drivers/stepper.cpp: the chunks of steps handed to the
    pulse peripheral, and the loop that keeps two of them in flight. */
module Stepper {
  import opened StepRampModel

  const MIN_STEP_TICKS := 2
  const MAX_STEP_TICKS := 65534
  const CHUNK_MAX_STEPS := 128
  const CHUNK_MAX_US := 2000

  /** One step pulse: `high` ticks up, then `low` ticks down. */
  datatype Symbol = Symbol(high: int, low: int)
  {
    function Ticks(): int { high + low }

    predicate FitsHardware() { 1 <= high <= 32767 && 1 <= low <= 32767 }
  }

  /** What a chunk reads once at its start. */
  datatype Settings = Settings(target: int, hz: nat, accel: nat)
  {
    function Vmax(): real { if hz < 1 then 1.0 else hz as real }
    function Accel(): real { if accel < 1 then 1.0 else accel as real }
  }

  /** The settings are used as they are, but for 0, which counts as 1. */
  lemma SettingsUsed(cfg: Settings)
    ensures cfg.hz > 0 ==> cfg.Vmax() == cfg.hz as real
    ensures cfg.accel > 0 ==> cfg.Accel() == cfg.accel as real
    ensures cfg.Vmax() >= 1.0 && cfg.Accel() >= 1.0 && (cfg.hz == 0 ==> cfg.Vmax() == 1.0)
    ensures cfg.accel == 0 ==> cfg.Accel() == 1.0
  {
  }

  function LRound(x: real): int {
    if x >= 0.0 then (x + 0.5).Floor else -((-x + 0.5).Floor)
  }

  /** To the nearest, and half away from zero. */
  lemma LRoundNearest(x: real)
    ensures -0.5 <= x - LRound(x) as real <= 0.5
    ensures (x >= 0.0 ==> x - LRound(x) as real < 0.5) && (x <= 0.0 ==> x - LRound(x) as real > -0.5)
  {
    if x >= 0.0 {
      assert (x + 0.5).Floor as real <= x + 0.5 < (x + 0.5).Floor as real + 1.0;
    } else {
      var y := -x + 0.5;
      assert y.Floor as real <= y < y.Floor as real + 1.0;
      assert LRound(x) as real == -(y.Floor as real);
    }
  }

  function Clamp(ticks: int): int {
    if ticks < MIN_STEP_TICKS then MIN_STEP_TICKS
    else if ticks > MAX_STEP_TICKS then MAX_STEP_TICKS
    else ticks
  }

  /** The nearest number of ticks the pulse peripheral can send: nearer than any other `t` of them. */
  lemma ClampNearest(ticks: int, t: int)
    requires 2 <= t <= 65534
    ensures 2 <= Clamp(ticks) <= 65534
    ensures if t <= ticks then t <= Clamp(ticks) <= ticks else ticks <= Clamp(ticks) <= t
  {
  }

  function Sum(xs: seq<real>): real {
    if |xs| == 0 then 0.0 else Sum(xs[..|xs| - 1]) + xs[|xs| - 1]
  }

  function SumTicks(symbols: seq<Symbol>): int {
    if |symbols| == 0 then 0 else SumTicks(symbols[..|symbols| - 1]) + symbols[|symbols| - 1].Ticks()
  }

  /** What rounding has left over after the pulses `sent`. */
  function CarryOver(exact: seq<real>, sent: seq<Symbol>, carry: real): real {
    Sum(exact) + carry - SumTicks(sent) as real
  }

  /** Every pulse is its exact duration plus the carry in front of it, rounded, within
      the pulse peripheral's range. */
  ghost predicate Rounded(exact: seq<real>, sent: seq<Symbol>, carry: real) {
    && |exact| == |sent|
    && (|sent| > 0 ==>
          var n := |sent| - 1;
          && Rounded(exact[..n], sent[..n], carry)
          && sent[n].FitsHardware()
          && sent[n].Ticks() == Clamp(LRound(exact[n] + CarryOver(exact[..n], sent[..n], carry))))
  }

  /** The last pulse did not have to be clamped. */
  ghost predicate Unclamped(exact: seq<real>, sent: seq<Symbol>, carry: real)
    requires |exact| == |sent| > 0
  {
    var n := |sent| - 1;
    sent[n].Ticks() == LRound(exact[n] + CarryOver(exact[..n], sent[..n], carry))
  }

  /** One planner call from state `r` at speed `v` to state `s` at speed `w`. */
  ghost predicate PlannedStep(r: Ramp, v: real, s: Ramp, w: real, exact: real, cfg: Settings) {
    && r.Valid() && Sq(cfg.Vmax()) >= 0.0
    && Next(r, cfg.target, Sq(cfg.Vmax()), 2.0 * cfg.Accel()) == Stepped(s)
    && Mul(exact, w + (if r.Resting() then 0.0 else v)) == 2000000.0
  }

  /** The states, speeds and durations of successive planner calls. */
  ghost predicate Planned(rs: seq<Ramp>, vs: seq<real>, exact: seq<real>, cfg: Settings) {
    && |rs| == |vs| == |exact| + 1
    && vs[|exact|] >= 0.0 && Sq(vs[|exact|]) == rs[|exact|].v2
    && (|exact| > 0 ==>
          var n := |exact| - 1;
          && Planned(rs[..n + 1], vs[..n + 1], exact[..n], cfg)
          && PlannedStep(rs[n], vs[n], rs[n + 1], vs[n + 1], exact[n], cfg))
  }

  /** The pulse for one step, and the remainder carried to the next. */
  method Pulse(exact: real) returns (s: Symbol, left: real)
    ensures s.FitsHardware() && s.Ticks() == Clamp(LRound(exact))
    ensures s.Ticks() as real + left == exact && 0 <= s.low - s.high <= 1
    ensures s.Ticks() == LRound(exact) ==> -0.5 <= left <= 0.5
  {
    var ticks := LRound(exact);
    LRoundNearest(exact);
    if ticks < MIN_STEP_TICKS { ticks := MIN_STEP_TICKS; }
    if ticks > MAX_STEP_TICKS { ticks := MAX_STEP_TICKS; }
    left := exact - ticks as real;
    var high := ticks / 2;
    s := Symbol(high, ticks - high);
  }

  /** The steps the planner still has to take under the chunk's settings. */
  ghost function ToGo(r: Ramp, cfg: Settings): nat
    requires r.Valid()
  {
    StepsToGo(r, cfg.target, 2.0 * cfg.Accel())
  }

  /** A chunk as a value: the planner states and speeds it went through, the exact
      durations, the pulses sent and their one direction. */
  datatype Chunk = Chunk(rs: seq<Ramp>, vs: seq<real>, exact: seq<real>, sent: seq<Symbol>, dir: int)

  /** The pulses are the exact durations, rounded, and the tick total never drifts: ticks
      sent plus the carry out equal the exact durations plus the carry in, with at most
      half a tick left over after any pulse that was not clamped. */
  ghost predicate NoDrift(exact: seq<real>, sent: seq<Symbol>, carry: real, left: real) {
    && Rounded(exact, sent, carry)
    && SumTicks(sent) as real + left == Sum(exact) + carry
    && (|sent| > 0 && Unclamped(exact, sent, carry) ==> -0.5 <= left <= 0.5)
  }

  /** The steps are the planner's own; they all have one direction and take off exactly
      that many of the steps to go. */
  ghost predicate OneWay(c: Chunk, cfg: Settings) {
    var n := |c.exact|;
    && Planned(c.rs, c.vs, c.exact, cfg)
    && c.rs[0].Valid() && c.rs[n].Valid()
    && c.rs[n].pos == c.rs[0].pos + Along(c.dir, n)
    && ToGo(c.rs[n], cfg) == ToGo(c.rs[0], cfg) - n
    && (if n == 0 then c.dir == 0 else (c.dir == 1 || c.dir == -1) && c.rs[n].dir == c.dir)
  }

  ghost predicate EndsAt(c: Chunk, ramp: StepRamp)
    reads ramp
  {
    && |c.rs| == |c.vs| == |c.sent| + 1
    && ramp.Valid() && c.rs[|c.rs| - 1] == ramp.View() && c.vs[|c.vs| - 1] == ramp.v
  }

  /** A chunk is filled up: with as many steps as it holds, for as long as it may last, or up to a
      point of rest; and its last step still began within that time. */
  ghost predicate Filled(c: Chunk, cfg: Settings) {
    var n := |c.sent|;
    && |c.rs| == n + 1 && n <= CHUNK_MAX_STEPS && BeganInTime(c.sent)
    && (n == CHUNK_MAX_STEPS || SumTicks(c.sent) >= CHUNK_MAX_US || c.rs[n].Resting() || c.rs[n].pos == cfg.target)
  }

  ghost predicate BeganInTime(sent: seq<Symbol>) {
    |sent| > 0 ==> SumTicks(sent[..|sent| - 1]) < CHUNK_MAX_US
  }

  lemma OneMorePulse(sent: seq<Symbol>, s: Symbol)
    requires SumTicks(sent) < CHUNK_MAX_US
    ensures BeganInTime(sent + [s]) && SumTicks(sent + [s]) == SumTicks(sent) + s.Ticks()
  {
    assert (sent + [s])[..|sent|] == sent;
  }

  /** Fills `out` with the next steps of `ramp`, up to a point of rest. */
  method FillChunk(out: array<Symbol>, ramp: StepRamp, carry: real, cfg: Settings, sqrt: real -> real)
    returns (n: nat, dir: int, left: real, ghost c: Chunk)
    requires out.Length == CHUNK_MAX_STEPS && ramp.Valid() && IsSquareRoot(sqrt)
    modifies out, ramp
    ensures ramp.Valid() && n <= CHUNK_MAX_STEPS && OneWay(c, cfg) && NoDrift(c.exact, c.sent, carry, left)
    ensures Filled(c, cfg) && c.sent == out[..n] && c.dir == dir && c.rs[0] == old(ramp.View())
    ensures ramp.View() == c.rs[n] || (ramp.View() == Ramp(cfg.target, 0, 0.0) && c.rs[n].pos == cfg.target)
    ensures n == 0 ==> ramp.View() == Ramp(cfg.target, 0, 0.0)
  {
    hide OneWay, NoDrift, ToGo, SumTicks, BeganInTime;
    n, dir, left := 0, 0, carry;
    c := EmptyChunk(ramp, cfg, carry);
    var us := 0;
    while n < CHUNK_MAX_STEPS && us < CHUNK_MAX_US
      invariant n <= CHUNK_MAX_STEPS && (n == 0 ==> us == 0) && us == SumTicks(c.sent) && BeganInTime(c.sent)
      invariant OneWay(c, cfg) && NoDrift(c.exact, c.sent, carry, left) && EndsAt(c, ramp)
      invariant c.sent == out[..n] && c.dir == dir && c.rs[0] == old(ramp.View())
      decreases CHUNK_MAX_STEPS - n
    {
      if n > 0 && ramp.v <= 0.0 { break; }
      var stepped, s;
      stepped, s, dir, left, c := AddStep(ramp, cfg, sqrt, n, dir, carry, left, c);
      if !stepped { break; }
      ghost var sent := out[..n];
      out[n] := s;
      assert out[..n + 1] == sent + [s];
      OneMorePulse(sent, s);
      n := n + 1;
      us := us + s.high + s.low;
    }
  }

  lemma EmptyChunk(ramp: StepRamp, cfg: Settings, carry: real) returns (c: Chunk)
    requires ramp.Valid()
    ensures c.sent == [] && |c.rs| == 1 && c.rs[0] == ramp.View() && SumTicks(c.sent) == 0 && BeganInTime(c.sent)
    ensures OneWay(c, cfg) && NoDrift(c.exact, c.sent, carry, carry) && EndsAt(c, ramp) && c.dir == 0
  {
    c := Chunk([ramp.View()], [ramp.v], [], [], 0);
    SquareSign(ramp.v);
  }

  /** One turn of the fill loop: a planner step and its pulse, unless the ramp rests. */
  method AddStep(ramp: StepRamp, cfg: Settings, sqrt: real -> real, n: nat, dir: int, carry: real, left: real,
                 ghost c: Chunk)
    returns (stepped: bool, s: Symbol, newDir: int, newLeft: real, ghost d: Chunk)
    requires IsSquareRoot(sqrt) && OneWay(c, cfg) && NoDrift(c.exact, c.sent, carry, left) && EndsAt(c, ramp)
    requires n == |c.sent| && c.dir == dir
    requires n > 0 ==> ramp.v > 0.0
    modifies ramp
    ensures ramp.Valid()
    ensures !stepped ==> d == c && newDir == dir && newLeft == left
                         && ramp.View() == Ramp(cfg.target, 0, 0.0) && c.rs[n].pos == cfg.target
    ensures stepped ==> OneWay(d, cfg) && NoDrift(d.exact, d.sent, carry, newLeft) && d.dir == newDir && EndsAt(d, ramp)
                        && d.sent == c.sent + [s] && d.rs[0] == c.rs[0]
  {
    s, newDir, newLeft, d := Symbol(0, 0), dir, left, c;
    var ticks := PlanStep(ramp, cfg, sqrt);
    stepped := ticks > 0.0;
    if stepped {
      if n == 0 { newDir := ramp.dir; }
      s, newLeft := Pulse(ticks + left);
      GrowPulses(c.exact, c.sent, carry, ticks, s, newLeft);
      d := GrowPlan(c, cfg, ramp.View(), ramp.v, ticks, s);
    }
  }

  lemma GrowPlan(c: Chunk, cfg: Settings, r: Ramp, w: real, ticks: real, s: Symbol) returns (d: Chunk)
    requires OneWay(c, cfg)
    requires Advances(c.rs[|c.exact|], c.vs[|c.exact|], r, w, ticks, cfg)
    requires |c.exact| > 0 ==> c.vs[|c.exact|] > 0.0
    ensures d == Chunk(c.rs + [r], c.vs + [w], c.exact + [ticks], c.sent + [s], r.dir)
    ensures OneWay(d, cfg)
  {
    d := Chunk(c.rs + [r], c.vs + [w], c.exact + [ticks], c.sent + [s], r.dir);
    ExtendPlan(c.rs, c.vs, c.exact, cfg, r, w, ticks);
  }

  /** A planner call that takes one of the steps to go, keeping the direction of a moving
      ramp. */
  ghost predicate Advances(r: Ramp, v: real, s: Ramp, w: real, ticks: real, cfg: Settings) {
    && PlannedStep(r, v, s, w, ticks, cfg)
    && s.Valid() && w >= 0.0 && Sq(w) == s.v2
    && ToGo(s, cfg) == ToGo(r, cfg) - 1
    && (s.dir == 1 || s.dir == -1) && s.pos == r.pos + s.dir
    && (v > 0.0 && r.dir != 0 ==> s.dir == r.dir)
  }

  /** One planner call under the chunk's settings. */
  method PlanStep(ramp: StepRamp, cfg: Settings, sqrt: real -> real) returns (ticks: real)
    requires ramp.Valid() && IsSquareRoot(sqrt)
    modifies ramp
    ensures ramp.Valid() && Sq(ramp.v) == ramp.View().v2
    ensures ticks <= 0.0 ==>
              && ramp.View() == Ramp(cfg.target, 0, 0.0)
              && ToGo(old(ramp.View()), cfg) == ToGo(ramp.View(), cfg) == 0
              && ramp.pos == old(ramp.pos)
    ensures ticks > 0.0 ==> Advances(old(ramp.View()), old(ramp.v), ramp.View(), ramp.v, ticks, cfg)
  {
    SquareSign(cfg.Vmax());
    SquareSign(ramp.v);
    Progress(ramp.View(), cfg.target, Sq(cfg.Vmax()), 2.0 * cfg.Accel());
    var seconds := ramp.NextStep(sqrt, cfg.target, cfg.Vmax(), cfg.Accel());
    ticks := seconds * 1000000.0;
    if seconds > 0.0 { InMicroseconds(seconds, ramp.v + (if old(ramp.View()).Resting() then 0.0 else old(ramp.v))); }
  }

  lemma InMicroseconds(seconds: real, speeds: real)
    requires Mul(seconds, speeds) == 2.0
    ensures Mul(seconds * 1000000.0, speeds) == 2000000.0
  {
    assert (seconds * 1000000.0) * speeds == (seconds * speeds) * 1000000.0;
  }

  lemma ExtendPlan(rs: seq<Ramp>, vs: seq<real>, exact: seq<real>, cfg: Settings, s: Ramp, w: real, t: real)
    requires Planned(rs, vs, exact, cfg) && w >= 0.0 && Sq(w) == s.v2
    requires PlannedStep(rs[|exact|], vs[|exact|], s, w, t, cfg)
    ensures Planned(rs + [s], vs + [w], exact + [t], cfg)
  {
    assert (rs + [s])[..|rs|] == rs && (vs + [w])[..|vs|] == vs && (exact + [t])[..|exact|] == exact;
  }

  /** Appending one step to a chunk. */
  lemma GrowPulses(exact: seq<real>, sent: seq<Symbol>, carry: real, t: real, s: Symbol, left: real)
    requires Rounded(exact, sent, carry) && s.FitsHardware()
    requires s.Ticks() == Clamp(LRound(t + CarryOver(exact, sent, carry)))
    requires s.Ticks() as real + left == t + CarryOver(exact, sent, carry)
    requires s.Ticks() == LRound(t + CarryOver(exact, sent, carry)) ==> -0.5 <= left <= 0.5
    ensures NoDrift(exact + [t], sent + [s], carry, left)
  {
    assert (exact + [t])[..|exact|] == exact;
    assert (sent + [s])[..|sent|] == sent;
  }

  // ---------------------------------------------------------------------------
  //  The move loop
  // ---------------------------------------------------------------------------

  /** What the rest of the system does to one turn of the loop: whether a stop is seen
      before or during the wait, and the settings in force when the chunk is filled. */
  datatype Turn = Turn(stop: bool, stopWhileWaiting: bool, cfg: Settings)

  datatype Exit = AtTarget | Stopped | StillRunning

  /** A transmission as the hardware sees it: its buffer, its steps and their direction,
      the level of the DIR pin, and the buffers in flight when it was filled. */
  datatype Sent = Sent(slot: int, steps: nat, dir: int, pin: int, busy: seq<int>)

  function Travel(log: seq<Sent>): int {
    if |log| == 0 then 0 else Travel(log[..|log| - 1]) + Along(log[|log| - 1].pin, log[|log| - 1].steps)
  }

  function Steps(log: seq<Sent>): nat {
    if |log| == 0 then 0 else Steps(log[..|log| - 1]) + log[|log| - 1].steps
  }

  /** A transmission is sound if DIR agrees with its steps and its buffer was free. */
  ghost predicate Sound(s: Sent) {
    s.pin == s.dir && (s.dir == 1 || s.dir == -1) && s.steps > 0 && s.slot !in s.busy
  }

  ghost predicate AllSound(log: seq<Sent>) {
    forall i :: 0 <= i < |log| ==> Sound(log[i])
  }

  lemma Logged(log: seq<Sent>, s: Sent)
    requires AllSound(log) && Sound(s)
    ensures AllSound(log + [s]) && Travel(log + [s]) == Travel(log) + Along(s.dir, s.steps)
    ensures Steps(log + [s]) == Steps(log) + s.steps
  {
    assert (log + [s])[..|log|] == log;
  }

  /** The buffers in flight: never more than two, the older one first, and never the one
      to be filled next unless both are in flight. */
  ghost predicate InFlight(busy: seq<int>, slot: int, inFlight: nat) {
    && inFlight == |busy| <= 2 && (slot == 0 || slot == 1)
    && (|busy| == 1 ==> busy == [1 - slot])
    && (|busy| == 2 ==> busy == [slot, 1 - slot])
  }

  /** DIR only ever moves while nothing is in flight. */
  ghost predicate DirChangesIdle(changes: seq<(int, int)>) {
    forall i :: 0 <= i < |changes| ==> changes[i].1 == 0
  }

  /** Where a chunk leaves the ramp: where its last step ended, or at rest there. */
  ghost predicate Leaves(c: Chunk, cfg: Settings, r: Ramp) {
    && |c.rs| > 0
    && var e := c.rs[|c.rs| - 1]; r == e || (r == Ramp(cfg.target, 0, 0.0) && e.pos == cfg.target)
  }

  /** The chunks of a move, one a turn, each filled up: the planner's own steps under the settings
      of its turn, from where the one before left the ramp, the first from rest at `start`; the
      last one leaves it at `r`. */
  ghost predicate Traced(start: int, turns: seq<Turn>, cs: seq<Chunk>, r: Ramp) {
    && |cs| <= |turns|
    && if |cs| == 0 then r == Ramp(start, 0, 0.0)
       else
         var n := |cs| - 1;
         && OneWay(cs[n], turns[n].cfg) && Filled(cs[n], turns[n].cfg) && Leaves(cs[n], turns[n].cfg, r)
         && Traced(start, turns, cs[..n], cs[n].rs[0])
  }

  /** All the durations planned in a move ... */
  function AllExact(cs: seq<Chunk>): seq<real> {
    if |cs| == 0 then [] else AllExact(cs[..|cs| - 1]) + cs[|cs| - 1].exact
  }

  /** ... and all the pulses sent for them. */
  function AllSent(cs: seq<Chunk>): seq<Symbol> {
    if |cs| == 0 then [] else AllSent(cs[..|cs| - 1]) + cs[|cs| - 1].sent
  }

  lemma TraceGrows(start: int, turns: seq<Turn>, cs: seq<Chunk>, r: Ramp, c: Chunk, s: Ramp)
    requires Traced(start, turns, cs, r) && |cs| < |turns|
    requires OneWay(c, turns[|cs|].cfg) && c.rs[0] == r && Leaves(c, turns[|cs|].cfg, s)
    requires Filled(c, turns[|cs|].cfg)
    ensures Traced(start, turns, cs + [c], s)
    ensures AllExact(cs + [c]) == AllExact(cs) + c.exact && AllSent(cs + [c]) == AllSent(cs) + c.sent
  {
    hide OneWay, Filled, Leaves;
    assert (cs + [c])[..|cs|] == cs;
  }

  /** Each transmission is the chunk of its turn. */
  ghost predicate Transmitted(cs: seq<Chunk>, log: seq<Sent>) {
    && |log| <= |cs|
    && forall i :: 0 <= i < |log| ==> log[i].steps == |cs[i].sent| == |cs[i].exact| && log[i].dir == cs[i].dir
  }

  /** FillChunk as the move loop uses it. */
  method NextChunk(out: array<Symbol>, ramp: StepRamp, carry: real, cfg: Settings, sqrt: real -> real)
    returns (n: nat, dir: int, left: real, ghost c: Chunk)
    requires out.Length == CHUNK_MAX_STEPS && ramp.Valid() && IsSquareRoot(sqrt)
    modifies out, ramp
    ensures ramp.Valid() && ramp.pos == old(ramp.pos) + Along(dir, n)
    ensures OneWay(c, cfg) && Filled(c, cfg) && c.rs[0] == old(ramp.View()) && Leaves(c, cfg, ramp.View())
    ensures n <= CHUNK_MAX_STEPS && c.sent == out[..n] && |c.exact| == n && c.dir == dir
    ensures NoDrift(c.exact, c.sent, carry, left)
    ensures n > 0 ==> dir == 1 || dir == -1
    ensures n == 0 ==> ramp.View() == Ramp(cfg.target, 0, 0.0)
  {
    n, dir, left, c := FillChunk(out, ramp, carry, cfg, sqrt);
    SquareSign(ramp.v);
  }

  /** Sums over two stretches, one after the other. */
  lemma {:induction false} SumBoth(a: seq<real>, b: seq<real>)
    ensures Sum(a + b) == Sum(a) + Sum(b)
    decreases |b|
  {
    if |b| == 0 {
      assert a + b == a;
    } else {
      var n := |b| - 1;
      assert (a + b)[..|a + b| - 1] == a + b[..n];
      SumBoth(a, b[..n]);
    }
  }

  lemma {:induction false} SumTicksBoth(a: seq<Symbol>, b: seq<Symbol>)
    ensures SumTicks(a + b) == SumTicks(a) + SumTicks(b)
    decreases |b|
  {
    if |b| == 0 {
      assert a + b == a;
    } else {
      var n := |b| - 1;
      assert (a + b)[..|a + b| - 1] == a + b[..n];
      SumTicksBoth(a, b[..n]);
    }
  }

  lemma CarryBoth(a: seq<real>, p: seq<Symbol>, b: seq<real>, q: seq<Symbol>, carry: real)
    ensures CarryOver(a + b, p + q, carry) == CarryOver(b, q, CarryOver(a, p, carry))
  {
    SumBoth(a, b);
    SumTicksBoth(p, q);
  }

  /** A stretch that takes over the carry of another goes on rounding as one with it. */
  lemma {:induction false} RoundedBoth(a: seq<real>, p: seq<Symbol>, b: seq<real>, q: seq<Symbol>, carry: real)
    requires Rounded(a, p, carry) && Rounded(b, q, CarryOver(a, p, carry))
    ensures Rounded(a + b, p + q, carry)
    ensures |q| > 0 && Unclamped(a + b, p + q, carry) ==> Unclamped(b, q, CarryOver(a, p, carry))
    decreases |q|
  {
    hide LRound, Clamp, CarryOver;
    if |q| == 0 {
      assert a + b == a && p + q == p;
    } else {
      var n := |q| - 1;
      assert (a + b)[..|a| + n] == a + b[..n] && (p + q)[..|p| + n] == p + q[..n];
      RoundedBoth(a, p, b[..n], q[..n], carry);
      CarryBoth(a, p, b[..n], q[..n], carry);
    }
  }

  /** The carry handed from chunk to chunk keeps the account of the whole move exact. */
  lemma NoDriftBoth(a: seq<real>, p: seq<Symbol>, carry: real, mid: real, b: seq<real>, q: seq<Symbol>, left: real)
    requires NoDrift(a, p, carry, mid) && NoDrift(b, q, mid, left)
    ensures NoDrift(a + b, p + q, carry, left)
  {
    hide Rounded, Unclamped;
    assert CarryOver(a, p, carry) == mid;
    RoundedBoth(a, p, b, q, carry);
    SumBoth(a, b);
    SumTicksBoth(p, q);
    if |q| == 0 {
      NoPulses(b, q, mid);
      assert a + b == a && p + q == p;
    }
  }

  lemma NothingSent(start: int, turns: seq<Turn>)
    ensures NoDrift([], [], 0.0, 0.0) && AllSound([]) && Travel([]) == Steps([]) == 0
    ensures Traced(start, turns, [], Ramp(start, 0, 0.0)) && Transmitted([], [])
    ensures AllExact([]) == [] && AllSent([]) == []
  {
  }

  lemma NoPulses(b: seq<real>, q: seq<Symbol>, carry: real)
    requires Rounded(b, q, carry) && |q| == 0
    ensures b == [] && Sum(b) == 0.0 && SumTicks(q) == 0
  {
  }

  /** What a move does over the turns of the environment. One chunk is filled a turn, the last
      turn stopped excepted; all are transmitted but an empty one, which ends the move at rest
      on the target read last. */
  ghost predicate Moved(start: int, turns: seq<Turn>, exit: Exit, used: nat, cs: seq<Chunk>, log: seq<Sent>, r: Ramp) {
    && used <= |turns| && Traced(start, turns, cs, r) && Transmitted(cs, log)
    && (forall i :: 0 <= i < |log| ==> log[i].steps > 0)
    && match exit
       case AtTarget =>
         |cs| == used == |log| + 1 && cs[used - 1].sent == [] && r == Ramp(turns[used - 1].cfg.target, 0, 0.0)
       case Stopped =>
         |cs| == |log| == used - 1 && (turns[used - 1].stop || turns[used - 1].stopWhileWaiting)
       case StillRunning =>
         |cs| == |log| == used == |turns|
  }

  /** Runs a ramp to its target over the turns of the environment. The pulses actually
      counted (DIR level times steps) add up to the position change, a buffer is never
      refilled while it is still being transmitted, DIR never moves under a step in
      flight, and without a stop the only exit is at rest on the target read last. Over
      the whole move the pulses are the durations the planner gave its chunks, rounded, and
      ticks sent and durations planned never drift apart. */
  method RunMove(start: int, turns: seq<Turn>, sqrt: real -> real)
    returns (exit: Exit, pos: int, inFlight: nat, carry: real, ghost log: seq<Sent>, ghost changes: seq<(int, int)>,
             ghost used: nat, ghost chunks: seq<Chunk>, ghost last: Ramp)
    requires IsSquareRoot(sqrt)
    ensures Moved(start, turns, exit, used, chunks, log, last) && pos == last.pos == start + Travel(log)
    ensures NoDrift(AllExact(chunks), AllSent(chunks), 0.0, carry) && |AllSent(chunks)| == Steps(log)
    ensures AllSound(log)
    ensures DirChangesIdle(changes)
    ensures inFlight == 0
    ensures exit == AtTarget ==> 0 < used && pos == turns[used - 1].cfg.target
    ensures (forall i :: 0 <= i < used ==> !turns[i].stop && !turns[i].stopWhileWaiting) ==> exit != Stopped
  {
    hide NoDrift, IsSquareRoot, AllSound, Travel, Steps, Traced, OneWay, Filled, Leaves, Transmitted, AllExact,
         AllSent;
    var ramp := new StepRamp(start);
    SquareSign(0.0);
    NothingSent(start, turns);
    var buf0, buf1 := new Symbol[CHUNK_MAX_STEPS](_ => Symbol(0, 0)), new Symbol[CHUNK_MAX_STEPS](_ => Symbol(0, 0));
    var dirLevelSet, slot := 0, 0;
    ghost var busy: seq<int> := [];
    inFlight, exit, used, carry := 0, StillRunning, 0, 0.0;
    log, changes, chunks, last := [], [], [], ramp.View();
    var t := 0;
    while t < |turns|
      invariant t <= |turns| && ramp.Valid() && exit == StillRunning && used == t
      invariant buf0.Length == buf1.Length == CHUNK_MAX_STEPS && fresh(ramp) && fresh(buf0) && fresh(buf1)
      invariant InFlight(busy, slot, inFlight) && AllSound(log)
      invariant DirChangesIdle(changes)
      invariant ramp.pos == start + Travel(log) && last == ramp.View()
      invariant |chunks| == |log| == t && Traced(start, turns, chunks, last) && Transmitted(chunks, log)
      invariant NoDrift(AllExact(chunks), AllSent(chunks), 0.0, carry) && |AllSent(chunks)| == Steps(log)
      invariant dirLevelSet == 0 || dirLevelSet == 1 || dirLevelSet == -1
    {
      used := t + 1;
      if turns[t].stop { exit := Stopped; break; }
      if inFlight == 2 {
        inFlight, busy := inFlight - 1, busy[1..];
        if turns[t].stopWhileWaiting { exit := Stopped; break; }
      }
      var out := if slot == 0 then buf0 else buf1;
      var n, dir, left;
      ghost var c;
      n, dir, left, c := NextChunk(out, ramp, carry, turns[t].cfg, sqrt);
      NoDriftBoth(AllExact(chunks), AllSent(chunks), 0.0, carry, c.exact, c.sent, left);
      TraceGrows(start, turns, chunks, last, c, ramp.View());
      StillTransmitted(chunks, c, log);
      carry, chunks, last := left, chunks + [c], ramp.View();
      if n == 0 { exit := AtTarget; break; }

      ghost var inFlightAtFill := busy;
      if dir != dirLevelSet {
        while inFlight > 0
          invariant InFlight(busy, slot, inFlight) && |busy| <= 1
        {
          inFlight, busy := inFlight - 1, busy[1..];
        }
        changes := changes + [(dir, inFlight)];
        dirLevelSet := dir;
      }
      ghost var sent := Sent(slot, n, dir, dirLevelSet, inFlightAtFill);
      Logged(log, sent);
      NextTransmitted(chunks, log, sent);
      log := log + [sent];
      inFlight, busy := inFlight + 1, busy + [slot];
      slot := 1 - slot;
      t := t + 1;
    }
    while inFlight > 0
      invariant inFlight == |busy|
    {
      inFlight, busy := inFlight - 1, busy[1..];
    }
    AllSteps(log);
    pos := ramp.pos;
  }

  lemma StillTransmitted(cs: seq<Chunk>, c: Chunk, log: seq<Sent>)
    requires Transmitted(cs, log)
    ensures Transmitted(cs + [c], log)
  {
  }

  lemma NextTransmitted(cs: seq<Chunk>, log: seq<Sent>, s: Sent)
    requires Transmitted(cs, log) && |log| < |cs|
    requires s.steps == |cs[|log|].sent| == |cs[|log|].exact| && s.dir == cs[|log|].dir
    ensures Transmitted(cs, log + [s])
  {
  }

  lemma AllSteps(log: seq<Sent>)
    requires AllSound(log)
    ensures forall i :: 0 <= i < |log| ==> log[i].steps > 0
  {
    forall i | 0 <= i < |log|
      ensures log[i].steps > 0
    {
      assert Sound(log[i]);
    }
  }

  // ---------------------------------------------------------------------------
  //  The move ends
  // ---------------------------------------------------------------------------

  /** From turn `k` on the settings no longer change. */
  ghost predicate Steady(turns: seq<Turn>, k: nat) {
    k < |turns| && forall i :: k <= i < |turns| ==> turns[i].cfg == turns[k].cfg
  }

  lemma LeavesNoMore(c: Chunk, cfg: Settings, r: Ramp)
    requires OneWay(c, cfg) && Leaves(c, cfg, r)
    ensures r.Valid() && ToGo(r, cfg) <= ToGo(c.rs[0], cfg) - |c.exact|
  {
  }

  /** Under steady settings every chunk but an empty one leaves fewer steps to go. */
  lemma {:induction false} TracedDown(start: int, turns: seq<Turn>, cs: seq<Chunk>, r: Ramp, k: nat)
    requires Traced(start, turns, cs, r) && k < |cs| && Steady(turns, k)
    requires forall i :: k <= i < |cs| ==> |cs[i].exact| > 0
    ensures cs[k].rs != [] && cs[k].rs[0].Valid() && r.Valid()
    ensures ToGo(r, turns[k].cfg) + (|cs| - k) <= ToGo(cs[k].rs[0], turns[k].cfg)
    decreases |cs|
  {
    hide OneWay, Filled, Leaves, ToGo;
    var n := |cs| - 1;
    LeavesNoMore(cs[n], turns[n].cfg, r);
    StartsValid(cs[n], turns[n].cfg);
    if k < n {
      TracedDown(start, turns, cs[..n], cs[n].rs[0], k);
    }
  }

  lemma StartsValid(c: Chunk, cfg: Settings)
    requires OneWay(c, cfg)
    ensures c.rs != [] && c.rs[0].Valid()
  {
  }

  /** The move ends: once the settings no longer change and nobody stops it, it is at rest on the
      target after at most as many further turns as the planner then has steps to go, and one. */
  lemma MoveEnds(start: int, turns: seq<Turn>, exit: Exit, used: nat, cs: seq<Chunk>, log: seq<Sent>, r: Ramp, k: nat)
    requires Moved(start, turns, exit, used, cs, log, r) && exit != Stopped && k < |cs| && Steady(turns, k)
    ensures cs[k].rs != [] && cs[k].rs[0].Valid()
    ensures used <= k + ToGo(cs[k].rs[0], turns[k].cfg) + 1
    ensures |turns| > k + ToGo(cs[k].rs[0], turns[k].cfg) ==>
              exit == AtTarget && r == Ramp(turns[k].cfg.target, 0, 0.0)
  {
    hide OneWay, Filled, Leaves, ToGo;
    TraceStarts(start, turns, cs, r, k);
    if |log| > k {
      TraceStarts(start, turns, cs, r, |cs| - 1);
      TracedPrefix(start, turns, cs, r, |log|);
      var q := if |log| == |cs| then r else cs[|log|].rs[0];
      TracedDown(start, turns, cs[..|log|], q, k);
    }
  }

  lemma {:induction false} TraceStarts(start: int, turns: seq<Turn>, cs: seq<Chunk>, r: Ramp, k: nat)
    requires Traced(start, turns, cs, r) && k < |cs|
    ensures cs[k].rs != [] && cs[k].rs[0].Valid()
    decreases |cs|
  {
    hide OneWay, Filled, Leaves;
    var n := |cs| - 1;
    StartsValid(cs[n], turns[n].cfg);
    if k < n {
      TraceStarts(start, turns, cs[..n], cs[n].rs[0], k);
    }
  }

  /** What was traced up to chunk `n`, which starts where that left the ramp. */
  lemma TracedPrefix(start: int, turns: seq<Turn>, cs: seq<Chunk>, r: Ramp, n: nat)
    requires Traced(start, turns, cs, r) && n <= |cs| <= n + 1
    ensures Traced(start, turns, cs[..n], if n == |cs| then r else cs[n].rs[0])
  {
    hide OneWay, Filled, Leaves;
    if n == |cs| {
      assert cs[..n] == cs;
    }
  }
}
