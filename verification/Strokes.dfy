/** The strokes of a run go back and forth: every turn heads for the other endpoint. */
module Strokes {
  import opened Config
  import opened Endpoints
  import opened Measuring
  import opened MotionCmd
  import opened MotionState
  import opened MotorFsm
  import opened Numbers
  import opened Runs
  import opened SettingsBlob
  import opened SettingsStore
  import opened StallMonitor
  import opened Supervisor
  import A = AutoSg

  /** The pump leaves the press running in this event. */
  predicate RunsOn(w: World, ev: Event) {
    w.m.run == Running && !ev.Reboot? && (ev.Pump? ==> Handled(w, ev.at).m.run == Running)
  }

  /** In this event a stroke ends and the press turns. */
  predicate Turns(w: World, ev: Event) {
    RunsOn(w, ev) && ev.Pump? && !ev.at.moving
  }

  function TurnsIn(y: System, evs: seq<Event>, i: nat, j: nat): nat
    requires i <= j <= |evs|
    decreases j
  {
    hide Next, Ready;
    if i == j then 0 else TurnsIn(y, evs, i, j - 1) + if Turns(After(y, evs, j - 1).w, evs[j - 1]) then 1 else 0
  }

  lemma AutoStrokeGeo(w: World, now: int)
    ensures Inv(w) && w.m.auto.active ==>
              var b := AutoStroke(w, now); b.m.geo == w.m.geo && b.m.currentTarget == w.m.currentTarget
  {
    hide MeasuredTrips, A.StrokeDone, A.Result, A.Stroke;
  }

  lemma ArrivedTarget(w: World, now: int)
    requires Inv(w) && w.m.run == Running && Arrived(w, now).m.run == Running
    ensures var n := Arrived(w, now).m;
            n.geo == w.m.geo && n.currentTarget == FlipTarget(w.m.currentTarget, w.m.geo.up, w.m.geo.down)
  {
    hide FlipTarget, HeadingDown, StrokeCounted, AutoStroke, AutoEnds, MeasuredTrips, Since;
    var t := Since(now, w.m.lastChangeMs);
    CountedKeeps(w.m, t);
    if w.m.auto.active {
      AutoStrokeGeo(w, now);
    }
  }

  lemma MonitoredTarget(w: World, at: Sense)
    ensures Inv(w) && w.m.run == Running && Monitored(w, at).m.run == Running ==>
              var n := Monitored(w, at).m; n.geo == w.m.geo && n.currentTarget == w.m.currentTarget
  {
    hide Blanked, InZone, InDecelWindow, HeadingDown, Count, Add, Fires, A.Stroke;
  }

  lemma HandledTarget(w: World, at: Sense)
    requires Inv(w) && w.m.run == Running && Handled(w, at).m.run == Running
    ensures var n := Handled(w, at).m;
            && n.geo == w.m.geo
            && n.currentTarget == if at.moving then w.m.currentTarget
                                  else FlipTarget(w.m.currentTarget, w.m.geo.up, w.m.geo.down)
  {
    hide Inv, Arrived, Monitored, Stopped, TimedOut, FlipTarget, MeasuredTrips;
    if TimedOut(w, at.now) {
      StopsRunning(AutoEnded(w, false), at.now);
    } else if !at.moving {
      ArrivedTarget(w, at.now);
    } else {
      MonitoredTarget(w, at);
    }
  }

  lemma StopsRunning(w: World, now: int)
    ensures w.m.run == Running ==> Stopped(w, now).m.run == Stopping
  {
    hide MeasuredTrips;
  }

  lemma SettingsKeepTarget(w: World, idx: int, ma: int)
    ensures var n := CurrentSet(ProfileSet(w, idx), ma).m;
            n.geo == w.m.geo && n.currentTarget == w.m.currentTarget && n.run == w.m.run
  {
  }

  /** What one event does to the stroke of a press that runs on. */
  lemma NextTarget(y: System, ev: Event)
    requires Inv(y.w) && RunsOn(y.w, ev)
    ensures var n := Next(y, ev).w.m;
            n.run == Running ==>
              && n.currentTarget == (if Turns(y.w, ev)
                                     then FlipTarget(y.w.m.currentTarget, y.w.m.geo.up, y.w.m.geo.down)
                                     else y.w.m.currentTarget)
              && (ev.Pump? ==> n.geo == y.w.m.geo)
  {
    hide Inv, Handled, Commanded, Tick, SaveNow, Load, Edited, FlipTarget, Stopped, ProfileSet, CurrentSet;
    match ev
    case Pump(at, r, f, io) =>
      HandledTarget(y.w, at);
      HandledInv(y.w, at);
      var a := Handled(y.w, at);
      RunningCommands(a, r, f);
      StopsRunning(a, f.now);
      SettingsKeepTarget(if r.toggles > 0 || r.stop then Stopped(a, f.now) else a, r.profile, r.currentMa);
    case Write(e, now, ok) =>
      EditKeepsProfiles(y.w.m, e);
    case Reboot(_, _, _) =>
  }

  /** One uninterrupted run of the press between events `i` and `j`, its endpoints not edited. */
  ghost predicate OneRun(y: System, evs: seq<Event>, i: nat, j: nat)
    requires i <= j <= |evs|
  {
    var g := After(y, evs, i).w.m.geo;
    && (forall k :: i <= k < j ==> RunsOn(After(y, evs, k).w, evs[k]))
    && forall k :: i <= k <= j ==> var w := After(y, evs, k).w;
         w.m.run == Running && w.m.geo.up == g.up && w.m.geo.down == g.down
  }

  /** Over a run the target moves exactly with the turns. */
  lemma {:induction false} TargetsFlip(y: System, evs: seq<Event>, i: nat, j: nat)
    requires i <= j <= |evs| && Inv(y.w)
    ensures OneRun(y, evs, i, j) ==>
              var m := After(y, evs, i).w.m;
              After(y, evs, j).w.m.currentTarget == Flips(m.currentTarget, m.geo.up, m.geo.down, TurnsIn(y, evs, i, j))
    decreases j
  {
    hide Inv, Next, RunsOn, Turns, FlipTarget, Ready;
    if i < j && OneRun(y, evs, i, j) {
      TargetsFlip(y, evs, i, j - 1);
      AlwaysInv(y, evs, j - 1);
      NextTarget(After(y, evs, j - 1), evs[j - 1]);
    }
  }

  /** Strokes strictly alternate over any uninterrupted run whose endpoints are not edited: once
      the press has turned, its target is the endpoint that the number of turns so far says. */
  lemma {:induction false} StrokesAlternate(y: System, evs: seq<Event>, i: nat, j: nat)
    requires i <= j <= |evs| && Inv(y.w)
    ensures OneRun(y, evs, i, j) ==>
              var m, n, k := After(y, evs, i).w.m, After(y, evs, j).w.m, TurnsIn(y, evs, i, j);
              && (HeadingDown(n) <==> HeadingDown(m) == (k % 2 == 0))
              && (k > 0 ==> n.currentTarget == if HeadingDown(n) then n.geo.down else n.geo.up)
  {
    hide Inv, Next, After, RunsOn, Turns, Ready, TurnsIn;
    if OneRun(y, evs, i, j) {
      TargetsFlip(y, evs, i, j);
      AlwaysInv(y, evs, i);
      var m, k := After(y, evs, i).w.m, TurnsIn(y, evs, i, j);
      RunningApart(After(y, evs, i).w);
      if k > 0 {
        FlipsAlternate(m.currentTarget, m.geo.up, m.geo.down, k);
      }
    }
  }

  lemma RunningApart(w: World)
    ensures Inv(w) && w.m.run == Running ==> w.m.geo.up + ENDPOINT_GUARD <= w.m.geo.down
  {
  }

  /** ... and with edits in between, too, every single turn that leaves the press running heads
      for the other endpoint. */
  lemma {:induction false} TurnsHeadBack(y: System, evs: seq<Event>, n: nat)
    requires n < |evs| && Inv(y.w)
    ensures var w, z := After(y, evs, n).w, After(y, evs, n + 1).w;
            Turns(w, evs[n]) && z.m.run == Running ==>
              && HeadingDown(z.m) != HeadingDown(w.m)
              && z.m.currentTarget == if HeadingDown(z.m) then z.m.geo.down else z.m.geo.up
  {
    hide Inv, Next, Ready;
    AlwaysInv(y, evs, n);
    var w := After(y, evs, n).w;
    if Turns(w, evs[n]) {
      RunningApart(w);
      NextTarget(After(y, evs, n), evs[n]);
    }
  }

  /** An edit in mid-stroke leaves the stroke heading for its endpoint exactly if it moved that
      endpoint outwards by less than half the new travel (at most half, for DOWN): an endpoint
      that moves inwards never flips it. */
  lemma EditKeepsHeading(w: World, e: Edit)
    requires Inv(w) && w.m.run == Running
    ensures var g, n := w.m.geo, Edited(w.m, e);
            && (w.m.currentTarget == g.down ==>
                  (HeadingDown(n) <==> 2 * (n.geo.down - g.down) <= n.geo.down - n.geo.up))
            && (w.m.currentTarget == g.up ==>
                  (!HeadingDown(n) <==> 2 * (g.up - n.geo.up) < n.geo.down - n.geo.up))
            && (w.m.currentTarget == g.down && n.geo.down <= g.down ==> HeadingDown(n))
            && (w.m.currentTarget == g.up && g.up <= n.geo.up ==> !HeadingDown(n))
  {
    hide Recomputed, Edited, A.Stroke, Driven;
    var n := Edited(w.m, e);
    EditKeepsProfiles(w.m, e);
    EditKeepsSide(w.m.geo.up, w.m.geo.down, n.geo.up, n.geo.down);
  }
}
