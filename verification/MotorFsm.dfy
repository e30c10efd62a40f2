/** The motor state table (lib/autolee_logic/motor_fsm.h) and the command gates that consult
    it (lib/autolee_logic/command_gate.h). */
module MotorFsm {

  datatype MotorState = Idle | Running | Stopping | Calibrating | Stalled | Homing

  datatype MotorEvent =
    | Start | GracefulStop | Jam | ReachedHome | StopTimeout | Calibrate | CalibrationDone | ReturnHome | HomeDone
    | Abort

  datatype Transition = Transition(valid: bool, next: MotorState)

  function MotorTransition(s: MotorState, e: MotorEvent): Transition {
    match (s, e)
    case (Idle, Start) => Transition(true, Running)
    case (Idle, Calibrate) => Transition(true, Calibrating)
    case (Idle, ReturnHome) => Transition(true, Homing)
    case (Running, GracefulStop) => Transition(true, Stopping)
    case (Running, Jam) => Transition(true, Stalled)
    case (Stopping, ReachedHome) => Transition(true, Idle)
    case (Stopping, StopTimeout) => Transition(true, Idle)
    case (Calibrating, CalibrationDone) => Transition(true, Idle)
    case (Calibrating, Abort) => Transition(true, Idle)
    case (Stalled, ReturnHome) => Transition(true, Homing)
    case (Homing, HomeDone) => Transition(true, Idle)
    case (Homing, Abort) => Transition(true, Idle)
    case _ => Transition(false, s)
  }

  /** Where each state is entered from: no event is without effect where it is valid, running begins
      in Idle alone, a jam is left for home alone, and only what searches can be aborted. */
  lemma StateTable(s: MotorState, e: MotorEvent)
    ensures var t := MotorTransition(s, e);
            && (t.valid <==> t.next != s)
            && (t.valid && t.next == Running <==> s == Idle && e == Start)
            && (t.valid && t.next == Stopping <==> s == Running && e == GracefulStop)
            && (t.valid && t.next == Stalled <==> s == Running && e == Jam)
            && (t.valid && t.next == Calibrating <==> s == Idle && e == Calibrate)
            && (t.valid && t.next == Homing <==> s in {Idle, Stalled} && e == ReturnHome)
            && (t.valid && t.next == Idle <==>
                  || (s == Stopping && e in {ReachedHome, StopTimeout})
                  || (s == Calibrating && e in {CalibrationDone, Abort}) || (s == Homing && e in {HomeDone, Abort}))
  {
  }

  /** The state after the first `n` events, where an event that is not valid is ignored. */
  function StateAfter(s: MotorState, es: seq<MotorEvent>, n: nat): MotorState
    requires n <= |es|
  {
    if n == 0 then s else MotorTransition(StateAfter(s, es, n - 1), es[n - 1]).next
  }

  /** Over any events: a jammed machine runs again only after a home has been entered in between. */
  lemma {:induction false} JamThenHome(s: MotorState, es: seq<MotorEvent>, i: nat, j: nat)
    requires i <= j <= |es| && StateAfter(s, es, i) == Stalled && StateAfter(s, es, j) == Running
    ensures exists k :: i < k < j && StateAfter(s, es, k) == Homing
    decreases j
  {
    if forall k :: i < k < j ==> StateAfter(s, es, k) != Homing {
      StaysJammed(s, es, i, j);
    }
  }

  lemma {:induction false} StaysJammed(s: MotorState, es: seq<MotorEvent>, i: nat, j: nat)
    requires i <= j <= |es| && StateAfter(s, es, i) == Stalled
    requires forall k :: i < k < j ==> StateAfter(s, es, k) != Homing
    ensures StateAfter(s, es, j) in {Stalled, Homing}
    ensures j > i && StateAfter(s, es, j) == Homing ==> StateAfter(s, es, j - 1) == Stalled
    decreases j
  {
    if i < j {
      StaysJammed(s, es, i, j - 1);
    }
  }

  predicate CanStart(s: MotorState) {
    s == Idle
  }

  datatype Refusal = Nothing | WrongState | NotCalibrated | PositionUnreferenced | NoBatchTarget | JamDetectionNotSetUp

  datatype GateInput = GateInput(
    state: MotorState, calibrated: bool, positionStale: bool, batchTarget: int, sgSetUp: bool)

  function GateStart(g: GateInput): Refusal {
    if !g.calibrated then NotCalibrated
    else if g.positionStale then PositionUnreferenced
    else if !g.sgSetUp then JamDetectionNotSetUp
    else if !CanStart(g.state) then WrongState
    else Nothing
  }

  function GateAutoSg(g: GateInput): Refusal {
    if !g.calibrated then NotCalibrated
    else if g.positionStale then PositionUnreferenced
    else if !CanStart(g.state) then WrongState
    else Nothing
  }

  function GateStop(g: GateInput): Refusal {
    if MotorTransition(g.state, GracefulStop).valid then Nothing else WrongState
  }

  function GateToggleRun(g: GateInput): Refusal {
    if CanStart(g.state) then GateStart(g) else GateStop(g)
  }

  function GateBatchStart(g: GateInput): Refusal {
    if g.batchTarget <= 0 then NoBatchTarget else GateStart(g)
  }

  function GateCalibrate(g: GateInput): Refusal {
    if MotorTransition(g.state, Calibrate).valid then Nothing else WrongState
  }

  function GateReturnHome(g: GateInput): Refusal {
    if MotorTransition(g.state, ReturnHome).valid then Nothing else WrongState
  }

  function GateResetSettings(g: GateInput): Refusal {
    if g.state == Idle then Nothing else WrongState
  }
}
