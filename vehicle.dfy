/** The agent's three behaviours: the fuzzy-logic controller, the
    finite-state controller, and the proximity detectors (left, right and
    front) that feed them. The detectors write into the controllers and the
    controllers read the detectors, so the three classes share a module.

    Geometry is supplied from outside: the distances a tick measures are
    parameters, and what the controllers ask of the agent's transform is
    appended to a `motions` log, in order. The frame time is a parameter. */
module Vehicle {
  import opened Scene
  import opened Navigation
  import opened FuzzyLogic
  import opened FsmRules
  import opened Stopwatch

  const WaypointTag := "waypoint"
  const ObstacleTag := "Obstacle"
  const StartLineTag := "StartLine"
  const FinishLineTag := "FinishLine"

  const FuzzyControllerName := "Fuzzy Logic"
  const FsmControllerName := "FSM"

  /** MoveCar's two translations for the given outputs: turn first (along
      the forward axis, scaled by the turn speed), then drive (along -right,
      scaled by the move speed). */
  function DriveMotions(o: Outputs, moveSpeed: real, turnSpeed: real, dt: real): seq<Motion> {
    [Translate(Forward, o.turn * turnSpeed * dt), Translate(NegRight, o.speed * moveSpeed * dt)]
  }

  // ===========================================================================
  // Fuzzy-logic controller
  // ===========================================================================

  class FuzzyLogicController {
    /** Cleared for good when the finish line is crossed. */
    var fuzzyLogic: bool
    var time: real
    const moveSpeed: real
    const turnSpeed: real

    var speed: real
    var turn: real
    var isCommitted: bool
    var commitmentDirection: real

    var curWaypoint: Waypoint?
    const timeToRot: real
    var curTimeToRot: real

    /** Set and cleared by the front detector. */
    var obstacle: GameObject?
    var leftObstacle: GameObject?
    var rightObstacle: GameObject?

    var collisions: int

    var leftSpace: real
    var rightSpace: real
    var distance: real

    const leftBound: Bounds
    const rightBound: Bounds

    /** What the controller asked of the agent's transform, in order. */
    var motions: seq<Motion>

    function CurrentOutputs(): Outputs
      reads this`speed, this`turn, this`isCommitted, this`commitmentDirection
    {
      Outputs(speed, turn, isCommitted, commitmentDirection)
    }

    /** While the controller runs, its outputs satisfy the latch invariant. */
    ghost predicate Valid()
      reads this`fuzzyLogic, this`speed, this`turn, this`isCommitted, this`commitmentDirection
    {
      fuzzyLogic ==> LatchInvariant(CurrentOutputs())
    }

    constructor (moveSpeed: real, turnSpeed: real, timeToRot: real, waypoint: Waypoint?,
                 leftBound: Bounds, rightBound: Bounds)
      ensures Valid()
      ensures fuzzyLogic && time == 0.0
      ensures CurrentOutputs() == Outputs(0.0, 0.0, false, 0.0)
      ensures curWaypoint == waypoint && curTimeToRot == 0.0 && collisions == 0
      ensures obstacle == null && leftObstacle == null && rightObstacle == null
      ensures this.moveSpeed == moveSpeed && this.turnSpeed == turnSpeed && this.timeToRot == timeToRot
      ensures this.leftBound == leftBound && this.rightBound == rightBound
      ensures motions == []
    {
      fuzzyLogic := true;
      time := 0.0;
      this.moveSpeed := moveSpeed;
      this.turnSpeed := turnSpeed;
      speed, turn := 0.0, 0.0;
      isCommitted, commitmentDirection := false, 0.0;
      curWaypoint := waypoint;
      this.timeToRot := timeToRot;
      curTimeToRot := 0.0;
      obstacle, leftObstacle, rightObstacle := null, null, null;
      collisions := 0;
      leftSpace, rightSpace, distance := 0.0, 0.0, 0.0;
      this.leftBound := leftBound;
      this.rightBound := rightBound;
      motions := [];
    }

    /** One physics tick. `frontMeasured`, `leftMeasured` and `rightMeasured`
        are the distances to the closest points of the detected obstacles;
        each is used only when that obstacle is present, else the 100 sentinel. */
    method FixedUpdate(dt: real, frontMeasured: real, leftMeasured: real, rightMeasured: real)
      requires Valid()
      modifies this`distance, this`leftObstacle, this`rightObstacle, this`leftSpace, this`rightSpace
      modifies this`speed, this`turn, this`isCommitted, this`commitmentDirection
      modifies this`curTimeToRot, this`motions
      ensures Valid()
      ensures old(fuzzyLogic) ==>
                && distance == (if obstacle != null then frontMeasured else NoObstacleDistance)
                && leftObstacle == leftBound.obstacle && rightObstacle == rightBound.obstacle
                && leftSpace == (if leftObstacle != null then leftMeasured else NoObstacleDistance)
                && rightSpace == (if rightObstacle != null then rightMeasured else NoObstacleDistance)
                && CurrentOutputs() == FuzzifyStep(old(CurrentOutputs()), distance, leftSpace, rightSpace)
      ensures old(fuzzyLogic) ==>
                var tick := RotationTimer(old(curTimeToRot), timeToRot, isCommitted, dt);
                && curTimeToRot == tick.curTimeToRot
                && motions == old(motions) + DriveMotions(CurrentOutputs(), moveSpeed, turnSpeed, dt)
                                + (if tick.rotate then Facing(curWaypoint) else [])
      ensures old(fuzzyLogic) && isCommitted ==> curTimeToRot == 0.0
      ensures !old(fuzzyLogic) ==>
                && speed == 0.0 && turn == 0.0
                && isCommitted == old(isCommitted) && commitmentDirection == old(commitmentDirection)
                && distance == old(distance) && leftSpace == old(leftSpace) && rightSpace == old(rightSpace)
                && leftObstacle == old(leftObstacle) && rightObstacle == old(rightObstacle)
                && curTimeToRot == old(curTimeToRot) && motions == old(motions)
    {
      if fuzzyLogic {
        Sense(frontMeasured, leftMeasured, rightMeasured);

        ghost var before := CurrentOutputs();
        FuzzifyInputs(distance, leftSpace, rightSpace);
        FuzzifyStepKeepsLatch(before, distance, leftSpace, rightSpace);

        MoveCar(dt);
        RotationStep(dt);
      } else {
        speed := 0.0;
        turn := 0.0;
      }
    }

    /** The sensing at the start of an active tick: the front distance when
        an obstacle is set, the side obstacles copied from the side detectors
        and their clearances, each falling back to the 100 sentinel. */
    method Sense(frontMeasured: real, leftMeasured: real, rightMeasured: real)
      modifies this`distance, this`leftObstacle, this`rightObstacle, this`leftSpace, this`rightSpace
      ensures distance == (if obstacle != null then frontMeasured else NoObstacleDistance)
      ensures leftObstacle == leftBound.obstacle && rightObstacle == rightBound.obstacle
      ensures leftSpace == (if leftObstacle != null then leftMeasured else NoObstacleDistance)
      ensures rightSpace == (if rightObstacle != null then rightMeasured else NoObstacleDistance)
    {
      distance := if obstacle != null then frontMeasured else NoObstacleDistance;
      leftObstacle := leftBound.obstacle;
      rightObstacle := rightBound.obstacle;
      leftSpace := if leftObstacle != null then leftMeasured else NoObstacleDistance;
      rightSpace := if rightObstacle != null then rightMeasured else NoObstacleDistance;
    }

    /** A waypoint marker moves the target on to the next waypoint and turns
        to face it; an obstacle counts a collision; the start line starts the
        stopwatch. A waypoint marker without a Waypoint in its parents ends the
        handler with a null dereference, changing nothing. */
    method OnTriggerEnter(other: GameObject, clock: Timer)
      requires Valid()
      modifies this`curWaypoint, this`motions, this`collisions, clock`timer
      ensures Valid()
      ensures other.tag == WaypointTag && other.parentWaypoint != null ==>
                curWaypoint == other.parentWaypoint.nextWaypoint && motions == old(motions) + Facing(curWaypoint)
      ensures other.tag != WaypointTag || other.parentWaypoint == null ==>
                curWaypoint == old(curWaypoint) && motions == old(motions)
      ensures collisions == old(collisions) + (if other.tag == ObstacleTag then 1 else 0)
      ensures clock.timer == (old(clock.timer) || other.tag == StartLineTag)
    {
      if other.tag == WaypointTag {
        if other.parentWaypoint == null {
          return;
        }
        curWaypoint := other.parentWaypoint.nextWaypoint;
        RotateToWaypoint();
      }
      if other.tag == ObstacleTag {
        collisions := collisions + 1;
      }
      if other.tag == StartLineTag {
        clock.timer := true;
      }
    }

    /** Leaving the finish line stops the stopwatch, switches the controller
        off and appends this run to the results file (again on every crossing). */
    method OnTriggerExit(other: GameObject, clock: Timer, results: ResultsFile, trackName: string)
      requires Valid()
      modifies this`fuzzyLogic, this`time, clock`timer, results
      ensures Valid()
      ensures other.tag == FinishLineTag ==>
                && !fuzzyLogic && !clock.timer && time == clock.elapsedTime
                && results.records == old(results.records) + [RunRecord(trackName, FuzzyControllerName, time, collisions)]
      ensures other.tag != FinishLineTag ==>
                fuzzyLogic == old(fuzzyLogic) && time == old(time) && clock.timer == old(clock.timer)
                && results.records == old(results.records)
    {
      if other.tag == FinishLineTag {
        clock.timer := false;
        fuzzyLogic := false;
        time := clock.GetElapsedTime();
        results.Append(RunRecord(trackName, FuzzyControllerName, time, collisions));
      }
    }

    /** The reorientation timer at the end of a tick: when the interval is
        due, restart it and face the waypoint unless committed; then advance it
        by the frame time, or hold it at zero while committed. */
    method RotationStep(dt: real)
      modifies this`curTimeToRot, this`motions
      ensures var tick := RotationTimer(old(curTimeToRot), timeToRot, isCommitted, dt);
              && curTimeToRot == tick.curTimeToRot
              && motions == old(motions) + (if tick.rotate then Facing(curWaypoint) else [])
      ensures isCommitted ==> curTimeToRot == 0.0
    {
      if curTimeToRot >= timeToRot {
        curTimeToRot := 0.0;
        if !isCommitted {
          RotateToWaypoint();
        }
      }

      if !isCommitted {
        curTimeToRot := curTimeToRot + dt;
      } else {
        curTimeToRot := 0.0;
      }
    }

    /** Turn to face the current waypoint, if there is one. */
    method RotateToWaypoint()
      modifies this`motions
      ensures motions == old(motions) + Facing(curWaypoint)
    {
      if curWaypoint == null {
        return;
      }
      motions := motions + [FaceWaypoint(curWaypoint)];
    }

    /** Fuzzify the inputs, apply the commitment latch and the rules, and
        defuzzify turn and speed. */
    method FuzzifyInputs(distance: real, leftSpace: real, rightSpace: real)
      modifies this`speed, this`turn, this`isCommitted, this`commitmentDirection
      ensures CurrentOutputs() == FuzzifyStep(old(CurrentOutputs()), distance, leftSpace, rightSpace)
    {
      ghost var next := FuzzifyStep(CurrentOutputs(), distance, leftSpace, rightSpace);
      var close := DistanceClose(distance);
      var medium := DistanceMedium(distance);
      var far := DistanceFar(distance);

      if isCommitted {
        if distance > ReleaseDistance || (turn < 0.0 && leftSpace <= ReleaseClearance)
           || (turn > 0.0 && rightSpace <= ReleaseClearance) {
          isCommitted := false;
        } else {
          turn := commitmentDirection;
        }
      } else {
        if leftSpace >= rightSpace {
          var wideLeft := SpaceWide(leftSpace);
          var ruleSharpLeft := Min(close, wideLeft);
          var ruleSlightLeft := Min(medium, wideLeft);
          turn := DefuzzifyRules([ruleSharpLeft, ruleSlightLeft], [-1.0, -0.5]);
          assert turn == TurnOutput(distance, leftSpace, rightSpace);
          if turn != 0.0 {
            isCommitted := true;
            commitmentDirection := turn;
          }
        } else {
          var wideRight := SpaceWide(rightSpace);
          var ruleSharpRight := Min(close, wideRight);
          var ruleSlightRight := Min(medium, wideRight);
          turn := DefuzzifyRules([ruleSharpRight, ruleSlightRight], [1.0, 0.5]);
          assert turn == TurnOutput(distance, leftSpace, rightSpace);
          if turn != 0.0 {
            isCommitted := true;
            commitmentDirection := turn;
          }
        }
      }
      assert turn == next.turn && isCommitted == next.isCommitted && commitmentDirection == next.commitmentDirection;

      var ruleFast := far;
      var ruleSlow := medium;
      var ruleStop := close;
      speed := DefuzzifyRules([ruleStop, ruleSlow, ruleFast], [0.0, 0.5, 1.0]);
      assert speed == SpeedOutput(distance);
    }

    /** Turn first (along the forward axis), then drive (along -right). */
    method MoveCar(dt: real)
      modifies this`motions
      ensures motions == old(motions) + DriveMotions(CurrentOutputs(), moveSpeed, turnSpeed, dt)
    {
      var turnStep := turn * turnSpeed * dt;
      var moveStep := speed * moveSpeed * dt;
      motions := motions + [Translate(Forward, turnStep), Translate(NegRight, moveStep)];
      ghost var drive := DriveMotions(CurrentOutputs(), moveSpeed, turnSpeed, dt);
      assert drive[0] == Translate(Forward, turnStep) && drive[1] == Translate(NegRight, moveStep);
    }
  }

  // ===========================================================================
  // Finite-state controller
  // ===========================================================================

  class FSMController {
    /** Cleared for good when the finish line is crossed. */
    var FSM: bool
    var time: real

    var currentState: States
    const moveSpeed: real
    /** The x extent of the agent's box. */
    const boxSizeX: real

    var curWaypoint: Waypoint?
    const timeToRot: real
    var curTimeToRot: real

    var collisions: int

    const leftBounds: Bounds
    const rightBounds: Bounds
    const frontBounds: Bounds

    var shiftDistance: real

    /** What the controller asked of the agent's transform, in order. */
    var motions: seq<Motion>

    /** The fields' initial values: the state starts Idle until Start runs. */
    constructor (moveSpeed: real, boxSizeX: real, timeToRot: real, waypoint: Waypoint?,
                 leftBounds: Bounds, rightBounds: Bounds, frontBounds: Bounds)
      ensures FSM && time == 0.0 && currentState == Idle
      ensures curWaypoint == waypoint && curTimeToRot == 0.0 && collisions == 0 && shiftDistance == 0.0
      ensures this.moveSpeed == moveSpeed && this.boxSizeX == boxSizeX && this.timeToRot == timeToRot
      ensures this.leftBounds == leftBounds && this.rightBounds == rightBounds && this.frontBounds == frontBounds
      ensures motions == []
    {
      FSM := true;
      time := 0.0;
      currentState := States.Idle;
      this.moveSpeed := moveSpeed;
      this.boxSizeX := boxSizeX;
      curWaypoint := waypoint;
      this.timeToRot := timeToRot;
      curTimeToRot := 0.0;
      collisions := 0;
      this.leftBounds := leftBounds;
      this.rightBounds := rightBounds;
      this.frontBounds := frontBounds;
      shiftDistance := 0.0;
      motions := [];
    }

    method Start()
      modifies this`currentState
      ensures currentState == States.MoveForward
    {
      currentState := States.MoveForward;
    }

    /** One physics tick: run the current state's handler, then the
        waypoint-reorientation timer, suppressed while avoiding. A disabled
        controller is forced to Idle. */
    method FixedUpdate(dt: real)
      modifies this`currentState, this`curTimeToRot, this`motions
      ensures FSM ==>
                && currentState == HandleStatesNext(old(currentState), shiftDistance, frontBounds.inCollision)
                && var cur := if ShiftsThisTick(old(currentState), shiftDistance) then 0.0 else old(curTimeToRot);
                   var tick := RotationTimer(cur, timeToRot, currentState.IsAvoiding(), dt);
                   && curTimeToRot == tick.curTimeToRot
                   && motions == old(motions) + HandleStatesMotion(old(currentState), shiftDistance, moveSpeed, dt)
                                 + (if tick.rotate then Facing(curWaypoint) else [])
      ensures FSM && currentState.IsAvoiding() ==> curTimeToRot == 0.0
      ensures !FSM ==> currentState == Idle && curTimeToRot == old(curTimeToRot) && motions == old(motions)
    {
      if FSM {
        HandleStates(dt);

        if curTimeToRot >= timeToRot {
          curTimeToRot := 0.0;
          if currentState != States.AvoidLeft && currentState != States.AvoidRight {
            RotateToWaypoint();
          }
        }

        if currentState != States.AvoidLeft && currentState != States.AvoidRight {
          curTimeToRot := curTimeToRot + dt;
        } else {
          curTimeToRot := 0.0;
        }
      } else {
        currentState := States.Idle;
      }
    }

    /** Same events as the fuzzy controller: waypoint advance, collision
        count, stopwatch start. */
    method OnTriggerEnter(other: GameObject, clock: Timer)
      modifies this`curWaypoint, this`motions, this`collisions, clock`timer
      ensures other.tag == WaypointTag && other.parentWaypoint != null ==>
                curWaypoint == other.parentWaypoint.nextWaypoint && motions == old(motions) + Facing(curWaypoint)
      ensures other.tag != WaypointTag || other.parentWaypoint == null ==>
                curWaypoint == old(curWaypoint) && motions == old(motions)
      ensures collisions == old(collisions) + (if other.tag == ObstacleTag then 1 else 0)
      ensures clock.timer == (old(clock.timer) || other.tag == StartLineTag)
    {
      if other.tag == WaypointTag {
        if other.parentWaypoint == null {
          return;
        }
        curWaypoint := other.parentWaypoint.nextWaypoint;
        RotateToWaypoint();
      }
      if other.tag == ObstacleTag {
        collisions := collisions + 1;
      }
      if other.tag == StartLineTag {
        clock.timer := true;
      }
    }

    /** Leaving the finish line stops the stopwatch, disables the controller
        and appends this run to the results file (again on every crossing). */
    method OnTriggerExit(other: GameObject, clock: Timer, results: ResultsFile, trackName: string)
      modifies this`FSM, this`time, clock`timer, results
      ensures other.tag == FinishLineTag ==>
                && !FSM && !clock.timer && time == clock.elapsedTime
                && results.records == old(results.records) + [RunRecord(trackName, FsmControllerName, time, collisions)]
      ensures other.tag != FinishLineTag ==>
                FSM == old(FSM) && time == old(time) && clock.timer == old(clock.timer)
                && results.records == old(results.records)
    {
      if other.tag == FinishLineTag {
        clock.timer := false;
        FSM := false;
        time := clock.GetElapsedTime();
        results.Append(RunRecord(trackName, FsmControllerName, time, collisions));
      }
    }

    /** Dispatch on the current state. */
    method HandleStates(dt: real)
      modifies this`currentState, this`curTimeToRot, this`motions
      ensures currentState == HandleStatesNext(old(currentState), shiftDistance, frontBounds.inCollision)
      ensures curTimeToRot == if ShiftsThisTick(old(currentState), shiftDistance) then 0.0 else old(curTimeToRot)
      ensures motions == old(motions) + HandleStatesMotion(old(currentState), shiftDistance, moveSpeed, dt)
    {
      match currentState
      case Idle =>
      case MoveForward =>
        MoveForward(dt);
      case AvoidLeft =>
        AvoidLeft(dt);
      case AvoidRight =>
        AvoidRight(dt);
    }

    /** Turn to face the current waypoint, if there is one. */
    method RotateToWaypoint()
      modifies this`motions
      ensures motions == old(motions) + Facing(curWaypoint)
    {
      if curWaypoint == null {
        return;
      }
      motions := motions + [FaceWaypoint(curWaypoint)];
    }

    /** Called by the front detector when an obstacle enters it: size the
        sideways shift from the obstacle's width and pick a side. */
    method CheckObstacles()
      modifies this`shiftDistance, this`currentState
      ensures shiftDistance == frontBounds.colliderWidth / 2.0 + boxSizeX / 2.0
      ensures currentState == ChooseAvoidance(leftBounds.inCollision, rightBounds.inCollision)
    {
      var left := leftBounds.inCollision;
      var right := rightBounds.inCollision;
      shiftDistance := frontBounds.colliderWidth / 2.0 + boxSizeX / 2.0;

      if !left {
        currentState := States.AvoidLeft;
      } else if !right {
        currentState := States.AvoidRight;
      } else {
        currentState := States.MoveForward;
      }
    }

    /** Despite its name, true while the front detector still reports an
        obstacle. */
    method PathClear() returns (blocked: bool)
      ensures blocked == frontBounds.inCollision
    {
      blocked := frontBounds.inCollision;
    }

    method MoveForward(dt: real)
      modifies this`motions
      ensures motions == old(motions) + [Translate(NegRight, moveSpeed * dt)]
    {
      var step := moveSpeed * dt;
      motions := motions + [Translate(NegRight, step)];
      assert moveSpeed * dt == step;
    }

    /** Shift left until the front clears; a zero shift returns to
        MoveForward at once, without moving or touching the timer. */
    method AvoidLeft(dt: real)
      modifies this`currentState, this`curTimeToRot, this`motions
      ensures shiftDistance == 0.0 ==>
                currentState == States.MoveForward && curTimeToRot == old(curTimeToRot)
      ensures motions == old(motions) + HandleStatesMotion(States.AvoidLeft, shiftDistance, moveSpeed, dt)
      ensures shiftDistance != 0.0 ==> curTimeToRot == 0.0
      ensures shiftDistance != 0.0 ==>
                currentState == (if frontBounds.inCollision then old(currentState) else States.MoveForward)
    {
      if shiftDistance == 0.0 {
        currentState := States.MoveForward;
        return;
      }

      var shift := shiftDistance * dt;
      motions := motions + [Translate(NegForward, shift)];

      var blocked := PathClear();
      if !blocked {
        currentState := States.MoveForward;
      }

      curTimeToRot := 0.0;
      assert HandleStatesMotion(States.AvoidLeft, shiftDistance, moveSpeed, dt)[0] == Translate(NegForward, shift);
    }

    /** Shift right until the front clears; a zero shift returns to
        MoveForward at once, without moving or touching the timer. */
    method AvoidRight(dt: real)
      modifies this`currentState, this`curTimeToRot, this`motions
      ensures shiftDistance == 0.0 ==>
                currentState == States.MoveForward && curTimeToRot == old(curTimeToRot)
      ensures motions == old(motions) + HandleStatesMotion(States.AvoidRight, shiftDistance, moveSpeed, dt)
      ensures shiftDistance != 0.0 ==> curTimeToRot == 0.0
      ensures shiftDistance != 0.0 ==>
                currentState == (if frontBounds.inCollision then old(currentState) else States.MoveForward)
    {
      if shiftDistance == 0.0 {
        currentState := States.MoveForward;
        return;
      }

      var shift := shiftDistance * dt;
      motions := motions + [Translate(Forward, shift)];

      var blocked := PathClear();
      if !blocked {
        currentState := States.MoveForward;
      }

      curTimeToRot := 0.0;
      assert HandleStatesMotion(States.AvoidRight, shiftDistance, moveSpeed, dt)[0] == Translate(Forward, shift);
    }
  }

  // ===========================================================================
  // Proximity detector
  // ===========================================================================

  /** A trigger zone beside or in front of the agent. A front detector filters
      by tag, records the obstacle's width and notifies the controllers; a side
      detector filters by layer and records the obstacle itself. Occupancy is a
      single flag: any matching exit clears it. */
  class Bounds {
    /** The controllers found in the agent, looked up by Start. */
    var fsmController: FSMController?
    var fuzzyLogicController: FuzzyLogicController?

    const defaultLayerMask: bv32
    var inCollision: bool
    const isFront: bool
    var colliderWidth: real
    var obstacle: GameObject?
    const tagName: string

    constructor (isFront: bool, tagName: string, defaultLayerMask: bv32)
      ensures this.isFront == isFront && this.tagName == tagName && this.defaultLayerMask == defaultLayerMask
      ensures !inCollision && colliderWidth == 0.0 && obstacle == null
      ensures fsmController == null && fuzzyLogicController == null
    {
      fsmController := null;
      fuzzyLogicController := null;
      this.defaultLayerMask := defaultLayerMask;
      inCollision := false;
      this.isFront := isFront;
      colliderWidth := 0.0;
      obstacle := null;
      this.tagName := tagName;
    }

    /** `fsm` and `fuzzy` are the agent's controllers, if it has them. */
    method Start(fsm: FSMController?, fuzzy: FuzzyLogicController?)
      modifies this`fsmController, this`fuzzyLogicController
      ensures fsmController == fsm && fuzzyLogicController == fuzzy
    {
      fsmController := fsm;
      fuzzyLogicController := fuzzy;
    }

    /** The controllers this detector notifies, as frames. */
    function NotifiedFsm(): set<FSMController>
      reads this`fsmController
    {
      if fsmController == null then {} else {fsmController}
    }

    function NotifiedFuzzy(): set<FuzzyLogicController>
      reads this`fuzzyLogicController
    {
      if fuzzyLogicController == null then {} else {fuzzyLogicController}
    }

    /** Whether this detector reacts to `other`: by tag in front, by layer at
        the sides. */
    predicate Accepts(other: GameObject)
    {
      if isFront then other.tag == tagName else LayerInMask(other.layer, defaultLayerMask)
    }

    method OnTriggerEnter(other: GameObject)
      requires fuzzyLogicController != null ==> fuzzyLogicController.Valid()
      modifies this`inCollision, this`colliderWidth, this`obstacle
      modifies NotifiedFsm()`shiftDistance, NotifiedFsm()`currentState, NotifiedFuzzy()`obstacle
      ensures fuzzyLogicController != null ==> fuzzyLogicController.Valid()
      ensures isFront && Accepts(other) ==>
                && inCollision && colliderWidth == other.width && obstacle == old(obstacle)
                && (fsmController != null ==>
                      var fsm := fsmController;
                      && fsm.shiftDistance == fsm.frontBounds.colliderWidth / 2.0 + fsm.boxSizeX / 2.0
                      && fsm.currentState == ChooseAvoidance(fsm.leftBounds.inCollision, fsm.rightBounds.inCollision)
                      && (fsm.frontBounds == this ==> fsm.shiftDistance == other.width / 2.0 + fsm.boxSizeX / 2.0))
                && (fuzzyLogicController != null ==> fuzzyLogicController.obstacle == other)
      ensures !isFront && Accepts(other) ==>
                && inCollision && obstacle == other && colliderWidth == old(colliderWidth)
      ensures !(isFront && Accepts(other)) ==>
                && (fsmController != null ==> unchanged(fsmController))
                && (fuzzyLogicController != null ==> unchanged(fuzzyLogicController))
      ensures !Accepts(other) ==>
                inCollision == old(inCollision) && colliderWidth == old(colliderWidth) && obstacle == old(obstacle)
    {
      if isFront {
        if other.tag == tagName {
          inCollision := true;
          colliderWidth := other.width;

          if fsmController != null {
            fsmController.CheckObstacles();
          }

          if fuzzyLogicController != null {
            fuzzyLogicController.obstacle := other;
          }
        }
      } else {
        if LayerInMask(other.layer, defaultLayerMask) {
          inCollision := true;
          obstacle := other;
        }
      }
    }

    method OnTriggerExit(other: GameObject)
      requires fuzzyLogicController != null ==> fuzzyLogicController.Valid()
      modifies this`inCollision, this`obstacle, NotifiedFuzzy()`obstacle
      ensures fuzzyLogicController != null ==> fuzzyLogicController.Valid()
      ensures colliderWidth == old(colliderWidth)
      ensures isFront && Accepts(other) ==>
                && !inCollision && obstacle == old(obstacle)
                && (fuzzyLogicController != null ==> fuzzyLogicController.obstacle == null)
      ensures !isFront && Accepts(other) ==> !inCollision && obstacle == null
      ensures !(isFront && Accepts(other)) ==> fuzzyLogicController != null ==> unchanged(fuzzyLogicController)
      ensures !Accepts(other) ==> inCollision == old(inCollision) && obstacle == old(obstacle)
    {
      if isFront {
        if other.tag == tagName {
          inCollision := false;

          if fuzzyLogicController != null {
            fuzzyLogicController.obstacle := null;
          }
        }
      } else {
        if LayerInMask(other.layer, defaultLayerMask) {
          inCollision := false;
          obstacle := null;
        }
      }
    }
  }
}
