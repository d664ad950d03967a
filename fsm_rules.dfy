/** The finite-state controller's states and its transition rules, as
    functions of the sensed facts: which side an obstacle makes it avoid
    towards, what a tick of HandleStates does to the state, and the motions it
    asks of the transform. */
module FsmRules {
  import opened Scene

  datatype States = Idle | MoveForward | AvoidLeft | AvoidRight {
    predicate IsAvoiding() {
      this == AvoidLeft || this == AvoidRight
    }
  }

  /** CheckObstacles' choice, from the side detectors' occupancy: shift to the
      left when it is free, else to the right when that is free, else carry on
      forward through the obstacle. */
  function ChooseAvoidance(leftBlocked: bool, rightBlocked: bool): (s: States)
    ensures s != Idle
    ensures s == AvoidLeft <==> !leftBlocked
    ensures s == AvoidRight <==> leftBlocked && !rightBlocked
    ensures s == MoveForward <==> leftBlocked && rightBlocked
  {
    if !leftBlocked then AvoidLeft
    else if !rightBlocked then AvoidRight
    else MoveForward
  }

  /** The state after HandleStates: Idle and MoveForward keep their state; an
      avoid state falls back to MoveForward when the shift is degenerate or
      the front detector no longer reports an obstacle, and is kept otherwise. */
  function HandleStatesNext(s: States, shiftDistance: real, frontBlocked: bool): (next: States)
    ensures !s.IsAvoiding() ==> next == s
    ensures s.IsAvoiding() ==> (next == MoveForward <==> shiftDistance == 0.0 || !frontBlocked)
    ensures s.IsAvoiding() && next != MoveForward ==> next == s
  {
    match s
    case Idle => Idle
    case MoveForward => MoveForward
    case AvoidLeft | AvoidRight =>
      if shiftDistance == 0.0 || !frontBlocked then MoveForward else s
  }

  /** HandleStates never starts an avoidance, and never leads to Idle from a
      running state: only CheckObstacles enters an avoid state and only a
      disabled controller goes Idle. */
  lemma HandleStatesNeverEntersAvoidOrIdle(s: States, shiftDistance: real, frontBlocked: bool)
    ensures var next := HandleStatesNext(s, shiftDistance, frontBlocked);
            && (next.IsAvoiding() ==> next == s)
            && (next == Idle ==> s == Idle)
  {
  }

  /** Whether the avoid branch ran its shift this tick (and so zeroed the
      rotation accumulator). */
  predicate ShiftsThisTick(s: States, shiftDistance: real) {
    s.IsAvoiding() && shiftDistance != 0.0
  }

  /** The translations HandleStates asks for: forward along -right at
      moveSpeed, or sideways at shiftDistance (left along -forward, right
      along +forward); nothing when idle or when the shift is degenerate. */
  function HandleStatesMotion(s: States, shiftDistance: real, moveSpeed: real, dt: real): (ms: seq<Motion>)
    ensures |ms| <= 1
    ensures ms == [] <==> s == Idle || (s.IsAvoiding() && shiftDistance == 0.0)
    ensures ms != [] ==> ms[0].Translate?
    ensures ms != [] && s == MoveForward ==> ms[0].axis == NegRight
    ensures ms != [] && s.IsAvoiding() ==> ms[0].axis != NegRight && ms[0].amount == shiftDistance * dt
  {
    match s
    case Idle => []
    case MoveForward => [Translate(NegRight, moveSpeed * dt)]
    case AvoidLeft => if shiftDistance == 0.0 then [] else [Translate(NegForward, shiftDistance * dt)]
    case AvoidRight => if shiftDistance == 0.0 then [] else [Translate(Forward, shiftDistance * dt)]
  }

  /** The two avoid states shift in opposite directions by the same amount. */
  lemma AvoidShiftsAreOpposite(shiftDistance: real, moveSpeed: real, dt: real)
    requires shiftDistance != 0.0
    ensures var l := HandleStatesMotion(AvoidLeft, shiftDistance, moveSpeed, dt);
            var r := HandleStatesMotion(AvoidRight, shiftDistance, moveSpeed, dt);
            |l| == |r| == 1 && l[0].amount == r[0].amount && l[0].axis == NegForward && r[0].axis == Forward
  {
  }
}
