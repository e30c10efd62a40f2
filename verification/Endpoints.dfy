/** Effective endpoints and target sides (lib/autolee_logic/endpoint_math.h). */
module Endpoints {
  import opened Numbers

  datatype Limits = Limits(offMin: int, offMax: int, guard: int) {
    ghost predicate Valid() {
      offMin <= offMax && guard > 0
    }
    predicate Allows(off: int) {
      offMin <= off <= offMax
    }
  }

  datatype Effective = Effective(upOffset: int, downOffset: int, up: int, down: int)

  function Compute(calibrated: bool, rawUp: int, rawDown: int, upOffset: int, downOffset: int, l: Limits): Effective {
    if !calibrated then Effective(upOffset, downOffset, 0, 0)
    else
      var u, d := Clamp(upOffset, l.offMin, l.offMax), Clamp(downOffset, l.offMin, l.offMax);
      var up, down := rawUp + u, rawDown + d;
      if down <= up + l.guard then Effective(u, up + l.guard - rawDown, up, up + l.guard)
      else Effective(u, d, up, down)
  }

  /** DOWN is the larger of what was asked for and UP plus the guard; both effective
      endpoints are the raw ones moved by the offsets that are stored. */
  lemma DownIsLarger(rawUp: int, rawDown: int, upOffset: int, downOffset: int, l: Limits)
    requires l.Valid()
    ensures var e := Compute(true, rawUp, rawDown, upOffset, downOffset, l);
            var asked := rawDown + Clamp(downOffset, l.offMin, l.offMax);
            && e.down >= asked && e.down >= e.up + l.guard && (e.down == asked || e.down == e.up + l.guard)
            && e.up == rawUp + e.upOffset && e.down == rawDown + e.downOffset && l.Allows(e.upOffset)
  {
  }

  /** Without a calibration there are no endpoints, and no offset is touched. */
  lemma NoEndpoints(rawUp: int, rawDown: int, upOffset: int, downOffset: int, l: Limits)
    ensures Compute(false, rawUp, rawDown, upOffset, downOffset, l) == Effective(upOffset, downOffset, 0, 0)
  {
  }

  /** Recomputing from the stored offsets changes nothing. */
  lemma Fixpoint(calibrated: bool, rawUp: int, rawDown: int, upOffset: int, downOffset: int, l: Limits)
    requires l.Valid()
    ensures var e := Compute(calibrated, rawUp, rawDown, upOffset, downOffset, l);
            Compute(calibrated, rawUp, rawDown, e.upOffset, e.downOffset, l) == e
  {
  }

  /** The DOWN offset stays within its limits, whatever is asked for, exactly if the raw
      travel is at least the guard. */
  lemma OffsetsStayInRange(rawUp: int, rawDown: int, l: Limits)
    requires l.Valid()
    ensures rawDown - rawUp >= l.guard <==>
            forall u, d :: l.Allows(Compute(true, rawUp, rawDown, u, d, l).downOffset)
  {
    if rawDown - rawUp < l.guard {
      var e := Compute(true, rawUp, rawDown, l.offMax, l.offMin, l);
      assert !l.Allows(e.downOffset);
    }
  }

  predicate TargetIsDown(target: int, up: int, down: int) {
    Abs(target - down) <= Abs(target - up)
  }

  function FlipTarget(t: int, up: int, down: int): int {
    if TargetIsDown(t, up, down) then up else down
  }

  function Flips(t: int, up: int, down: int, n: nat): int {
    if n == 0 then t else FlipTarget(Flips(t, up, down, n - 1), up, down)
  }

  /** From the first flip on, targets strictly alternate between the two endpoints. */
  lemma {:induction false} FlipsAlternate(t: int, up: int, down: int, n: nat)
    requires up < down && n > 0
    ensures Flips(t, up, down, n) == if TargetIsDown(t, up, down) == (n % 2 == 1) then up else down
  {
    if n > 1 {
      FlipsAlternate(t, up, down, n - 1);
    }
  }

  /** An edit of the endpoints leaves a run target in flight on its side if and only if it
      moved the target's endpoint, outwards or inwards past it, by less than half the new travel. */
  lemma EditKeepsSide(up: int, down: int, newUp: int, newDown: int)
    requires up < down && newUp < newDown
    ensures TargetIsDown(down, newUp, newDown) <==> 2 * (newDown - down) <= newDown - newUp
    ensures !TargetIsDown(up, newUp, newDown) <==> 2 * (up - newUp) < newDown - newUp
  {
  }
}
