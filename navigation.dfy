/** The waypoint-reorientation timer both controllers run at the end of an
    active tick: once `timeToRot` has elapsed the accumulator is reset and the
    agent turns to face its waypoint, unless it is busy avoiding (FSM) or
    committed to a turn (fuzzy controller); while busy the accumulator is held
    at zero. */
module Navigation {

  datatype RotationTick = RotationTick(curTimeToRot: real, rotate: bool)

  /** `cur` is the accumulator at the check, `busy` says whether the controller
      is avoiding or committed after its decision step, `dt` the tick length. */
  function RotationTimer(cur: real, timeToRot: real, busy: bool, dt: real): RotationTick {
    var due := cur >= timeToRot;
    var reset := if due then 0.0 else cur;
    RotationTick(if busy then 0.0 else reset + dt, due && !busy)
  }

  /** A rotation happens exactly when the interval has elapsed and the
      controller is free. */
  lemma RotatesOnlyWhenDueAndFree(cur: real, timeToRot: real, busy: bool, dt: real)
    ensures RotationTimer(cur, timeToRot, busy, dt).rotate <==> cur >= timeToRot && !busy
  {
  }

  /** While busy the accumulator ends the tick at zero and no rotation happens. */
  lemma BusyHoldsTimerAtZero(cur: real, timeToRot: real, dt: real)
    ensures RotationTimer(cur, timeToRot, true, dt) == RotationTick(0.0, false)
  {
  }

  /** Reaching the threshold resets the accumulator, so after a due check only
      the current tick's time (or nothing, when busy) has been counted. */
  lemma DueCheckRestartsInterval(cur: real, timeToRot: real, busy: bool, dt: real)
    requires cur >= timeToRot
    ensures RotationTimer(cur, timeToRot, busy, dt).curTimeToRot == if busy then 0.0 else dt
  {
  }

  /** With ticks of length at most `maxDt` the accumulator stays in
      [0, timeToRot + maxDt]: it never runs away, so a free controller
      rotates within one tick of the interval elapsing. */
  lemma TimerStaysBounded(cur: real, timeToRot: real, busy: bool, dt: real, maxDt: real)
    requires 0.0 <= timeToRot && 0.0 <= dt <= maxDt
    requires 0.0 <= cur <= timeToRot + maxDt
    ensures 0.0 <= RotationTimer(cur, timeToRot, busy, dt).curTimeToRot <= timeToRot + maxDt
  {
  }
}
