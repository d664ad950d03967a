# Vehicle agent decision layer, modelled in Dafny

This project models the decision layer of a Unity vehicle agent. The agent follows a chain of waypoints and steers around obstacles. It has four parts:

- **Fuzzy-logic controller.** Each tick it fuzzifies the front distance and the left and right clearances using trapezoidal sets (Close, Medium, Far and Wide). It infers a turn and a speed and defuzzifies them by a weighted average of singleton outputs. A commitment latch holds a chosen turn until a release condition fires.
- **Finite-state controller.** It has four states: Idle, MoveForward, AvoidLeft and AvoidRight. The front detector triggers `CheckObstacles`, which picks an avoidance side. The avoid states shift sideways until the front clears.
- **Proximity detectors.** These are the front and side trigger zones. They record occupancy, the obstacle width or the obstacle itself, and push into the controllers.
- **Stopwatch.** A run flag and an accumulator, shown as minutes and seconds, with one scene-wide instance.

Both controllers reorient towards their waypoint every `timeToRot` seconds, except while avoiding or committed. Both also count collisions, and both stop and write a results record when the finish line is crossed.

Modules:

- `Scene`: waypoints, the colliding game objects, the motion log, the results file.
- `Navigation`: the reorientation timer, as a function.
- `FuzzyLogic`: membership functions, defuzzification, rules, the latch, and runs of ticks.
- `FsmRules`: the states and the transition and motion functions of the finite-state controller.
- `Stopwatch`: the `Timer` class and the minutes/seconds split.
- `Vehicle`: the two controller classes and the detector class. The detectors and the controllers refer to each other, so all three classes share this module.

Geometry is supplied from outside. The distances a tick measures are parameters, and what a controller asks of the agent's transform is appended to a `motions` log in issue order. The frame time `Time.deltaTime` is a parameter. Unity's `float` is modelled as `real`.

Three behaviours of the code are worth noting:

- Crossing the finish line again appends another results record. Nothing makes the finish idempotent.
- A detector exit clears the occupancy flag. The front detector keeps `colliderWidth` and does not reset it to zero.
- The finite-state controller's field default is `Idle`. `Start` sets `MoveForward`.

## Model

| member | source | states |
|---|---|---|
| FuzzyLogic.TrapezoidalMembership | Assets/Scripts/FuzzyLogicController.cs:247-253 | The degree lies in [0, 1] and is 0 outside [a, d]. It is exactly 1 precisely on the plateau [b, c] within [a, d]. For ordered parameters both ramps are linear: on [a, b) the degree times (b − a) is x − a, and on (c, d] the degree times (d − c) is d − x, so it meets the plateau continuously. It is defined for every input, because a ramp is reached only when it has positive width. |
| FuzzyLogic.TrapezoidRises | Assets/Scripts/FuzzyLogicController.cs:249-251 | For a ≤ b ≤ c ≤ d, the degree never decreases up to the end of the plateau. |
| FuzzyLogic.TrapezoidFalls | Assets/Scripts/FuzzyLogicController.cs:250-252 | For a ≤ b ≤ c ≤ d, the degree never increases from the start of the plateau on. |
| FuzzyLogic.RisingShoulder | Assets/Scripts/FuzzyLogicController.cs:258 | This is the trapezoid with an infinite right edge. It lies in [0, 1], is 0 below a, and is exactly 1 precisely from b on. On [a, b) it is the linear ramp: the degree times (b − a) is x − a. |
| FuzzyLogic.ShoulderIsUnboundedTrapezoid | Assets/Scripts/FuzzyLogicController.cs:261 | The shoulder agrees with every finite trapezoid (a, b, c, d) whose plateau reaches past x. So it is the (a, b, +inf, +inf) set. |
| FuzzyLogic.DistanceClose | Assets/Scripts/FuzzyLogicController.cs:256 | Full membership exactly on [0, 2.5]. Positive exactly on [0, 3.75). |
| FuzzyLogic.DistanceMedium | Assets/Scripts/FuzzyLogicController.cs:257 | Full membership exactly on [5, 7.5]. Positive exactly on (2.5, 8.75). |
| FuzzyLogic.DistanceFar | Assets/Scripts/FuzzyLogicController.cs:258 | Full membership exactly from 10 on. Positive exactly above 7.5. |
| FuzzyLogic.SpaceWide | Assets/Scripts/FuzzyLogicController.cs:261 | Full membership exactly from 3 on. Positive exactly above 0. |
| FuzzyLogic.WeightedAverage | Assets/Scripts/FuzzyLogicController.cs:263-274 | The result is 0 when the levels do not sum to a positive value. Otherwise, result × Σlevels = Σ level·value. |
| FuzzyLogic.Defuzzify | Assets/Scripts/FuzzyLogicController.cs:263-274 | The accumulation loop over the two arrays returns exactly the weighted average of the levels and values. |
| FuzzyLogic.DefuzzifyRules | Assets/Scripts/FuzzyLogicController.cs:244 | Building the level and value arrays from the rule literals and defuzzifying them gives exactly the weighted average of those literals. |
| FuzzyLogic.NumeratorBetween | Assets/Scripts/FuzzyLogicController.cs:267-270 | With non-negative levels and values in [lo, hi], the accumulated numerator lies between lo·Σlevels and hi·Σlevels. |
| FuzzyLogic.DenominatorSign | Assets/Scripts/FuzzyLogicController.cs:267-273 | Non-negative levels sum to a non-negative value. The sum is 0 if and only if every level is 0. |
| FuzzyLogic.WeightedAverageBetween | Assets/Scripts/FuzzyLogicController.cs:263-274 | For non-negative levels: if no rule fired, the result is 0. Otherwise it lies between the smallest and largest singleton value. |
| FuzzyLogic.SpeedOutput | Assets/Scripts/FuzzyLogicController.cs:239-244 | Definition: the speed rules Stop = Close at 0, Slow = Medium at 0.5, Fast = Far at 1, defuzzified. Its range and its exact values near and far are proved in SpeedInUnitRange, SpeedStopsWhenClose and SpeedFullWhenClear. |
| FuzzyLogic.TurnOutput | Assets/Scripts/FuzzyLogicController.cs:205-236 | Definition: the turn rules of an uncommitted tick. The wider side is chosen, with ties to the left. The rules are min(Close, Wide) at ±1 and min(Medium, Wide) at ±0.5, defuzzified. Its sign, range and zero set are proved in TurnTowardsWiderSide and TurnNonZeroIff. |
| FuzzyLogic.Releases | Assets/Scripts/FuzzyLogicController.cs:193 | Definition: the release condition. The front is farther than 20, or a left turn with left clearance ≤ 0.2, or a right turn with right clearance ≤ 0.2. Its effect is proved in LatchTransitions and CommitmentHoldsUntilRelease. |
| FuzzyLogic.LatchInvariant | Assets/Scripts/FuzzyLogicController.cs:191-235 | Definition: speed in [0, 1], turn in [-1, 1], and a commitment implies turn = commitmentDirection with a committable non-zero value. It is preserved by FuzzifyStepKeepsLatch and RunKeepsLatch. |
| FuzzyLogic.FuzzifyStep | Assets/Scripts/FuzzyLogicController.cs:183-245 | Definition: one FuzzifyInputs call on the outputs and latch, as a function. A committed tick releases or re-applies the committed direction. An uncommitted tick computes the turn and commits to a non-zero one. The speed is recomputed on every tick. FuzzifyInputs is proved equal to it. |
| FuzzyLogic.Run | Assets/Scripts/FuzzyLogicController.cs:183-245 | Definition: FuzzifyStep applied to a sequence of per-tick readings, in order. It is used by CommitmentHoldsUntilRelease and RunKeepsLatch. |
| FuzzyLogic.SpeedInUnitRange | Assets/Scripts/FuzzyLogicController.cs:239-244 | The speed output lies in [0, 1] for every front distance. |
| FuzzyLogic.SpeedStopsWhenClose | Assets/Scripts/FuzzyLogicController.cs:239-244 | For any front distance up to 2.5, the speed is exactly 0. |
| FuzzyLogic.SpeedFullWhenClear | Assets/Scripts/FuzzyLogicController.cs:239-244 | For a front distance of 10 or more, the speed is exactly 1. This includes the no-obstacle sentinel 100. |
| FuzzyLogic.TurnTowardsWiderSide | Assets/Scripts/FuzzyLogicController.cs:205-236 | Uncommitted turn, wider side left (ties included): the turn is 0 or in [-1, -0.5]. Wider side right: the turn is 0 or in [0.5, 1]. |
| FuzzyLogic.TurnNonZeroIff | Assets/Scripts/FuzzyLogicController.cs:205-236 | The uncommitted turn is non-zero if and only if the front distance is in [0, 8.75) and the chosen side's clearance is positive. So it is 0 beyond 8.75. |
| FuzzyLogic.FuzzifyStepKeepsLatch | Assets/Scripts/FuzzyLogicController.cs:191-244 | Each fuzzification step preserves the latch invariant. The invariant is: speed in [0, 1], turn in [-1, 1], and a commitment implies turn = commitmentDirection with a committable non-zero value. |
| FuzzyLogic.LatchTransitions | Assets/Scripts/FuzzyLogicController.cs:191-236 | A committed tick releases exactly when the release condition holds on the held turn. Then the turn keeps its previous value, the speed is still recomputed, and otherwise the committed direction is reproduced. On an uncommitted tick the rule output becomes the turn, and the tick commits exactly when that output is non-zero. |
| FuzzyLogic.CommitmentHoldsUntilRelease | Assets/Scripts/FuzzyLogicController.cs:191-201 | Take any run of ticks none of whose readings meets the release condition. After it, the controller is still committed to exactly the same turn and direction. |
| FuzzyLogic.RunKeepsLatch | Assets/Scripts/FuzzyLogicController.cs:183-245 | The latch invariant holds after any number of fuzzification ticks. |
| Navigation.RotationTimer | Assets/Scripts/FuzzyLogicController.cs:99-116 | Definition: the end-of-tick reorientation step shared with FSMController.cs:61-77. It gives the new accumulator and whether a facing is issued. Its properties are the four Navigation lemmas below. |
| Navigation.RotatesOnlyWhenDueAndFree | Assets/Scripts/FuzzyLogicController.cs:99-116 | A reorientation happens if and only if the accumulator has reached timeToRot and the controller is neither committed nor avoiding. |
| Navigation.BusyHoldsTimerAtZero | Assets/Scripts/FSMController.cs:61-77 | While avoiding or committed, the accumulator ends the tick at 0 and no reorientation happens. |
| Navigation.DueCheckRestartsInterval | Assets/Scripts/FSMController.cs:61-77 | Reaching the threshold resets the accumulator. After the tick it holds only this tick's time, or 0 when busy. |
| Navigation.TimerStaysBounded | Assets/Scripts/FuzzyLogicController.cs:99-116 | With ticks of at most maxDt, the accumulator stays in [0, timeToRot + maxDt]. |
| FsmRules.ChooseAvoidance | Assets/Scripts/FSMController.cs:181-193 | The result is AvoidLeft if and only if the left side is free, whatever the right. It is AvoidRight if and only if left is blocked and right is free. It is MoveForward if and only if both are blocked. It is never Idle. |
| FsmRules.HandleStatesNext | Assets/Scripts/FSMController.cs:138-158 | Idle and MoveForward keep their state. An avoid state becomes MoveForward if and only if the shift is 0 or the front detector is not occupied, and is kept otherwise. |
| FsmRules.HandleStatesNeverEntersAvoidOrIdle | Assets/Scripts/FSMController.cs:138-158 | A state handler never enters a new avoid state. It never reaches Idle from a running state. |
| FsmRules.HandleStatesMotion | Assets/Scripts/FSMController.cs:201-240 | At most one translation per tick. There is none exactly when Idle or when avoiding with a zero shift. MoveForward drives along -right. An avoid state shifts sideways by shiftDistance·dt. |
| FsmRules.AvoidShiftsAreOpposite | Assets/Scripts/FSMController.cs:214-232 | For a non-zero shift, AvoidLeft and AvoidRight translate by the same amount along opposite forward axes. |
| Stopwatch.Truncate | Assets/Scripts/Timer.cs:37 | The whole quotient that the float `%` takes out, rounded toward zero: for r ≥ 0 it is the integer n with n ≤ r < n + 1, and for r < 0 the integer n with n − 1 < r ≤ n. |
| Stopwatch.Remainder | Assets/Scripts/Timer.cs:37 | The float `%`. For x ≥ 0 the result is in [0, y) and equals x − y·⌊x/y⌋. For x < 0 it is in (−y, 0]. |
| Stopwatch.MinutesSeconds | Assets/Scripts/Timer.cs:36-37 | For elapsed e ≥ 0: secs is in [0, 59], mins ≥ 0, and mins·60 + secs ≤ e < mins·60 + secs + 1. So the display is e rounded down to a whole second. |
| Stopwatch.Timer.constructor | Assets/Scripts/Timer.cs:8-11 | A new stopwatch is stopped, with a zero accumulator. |
| Stopwatch.Timer.Update | Assets/Scripts/Timer.cs:28-42 | The accumulator grows by exactly deltaTime while running and is unchanged otherwise. The display shows the minutes/seconds split of the new value. A non-negative deltaTime never decreases the accumulator. |
| Stopwatch.Timer.GetElapsedTime | Assets/Scripts/Timer.cs:45-48 | Returns the accumulator and changes nothing. |
| Stopwatch.Timer.Start | Assets/Scripts/Timer.cs:15-26 | The first stopwatch to start becomes the scene's instance. A later one does not replace it. |
| Stopwatch.TimerRegistry.constructor | Assets/Scripts/Timer.cs:13 | No instance is registered initially. |
| Scene.Waypoint.constructor | Assets/Scripts/Waypoint.cs:7 | A waypoint holds its (possibly null) successor. |
| Scene.GameObject.constructor | Assets/Scripts/Bounds.cs:41-45 | A colliding object carries its tag, layer, collider width and parent waypoint. |
| Scene.LayerInMask | Assets/Scripts/Bounds.cs:63 | Definition: the side detectors' filter `((1 << layer) & mask) != 0`, also used at Bounds.cs:92, over 32-bit masks. |
| Scene.ResultsFile.constructor | Assets/Scripts/FuzzyLogicController.cs:161 | The results file starts empty. |
| Scene.ResultsFile.Append | Assets/Scripts/FuzzyLogicController.cs:161-164 | Appends one record and keeps the earlier ones. |
| Vehicle.FuzzyLogicController.constructor | Assets/Scripts/FuzzyLogicController.cs:13-51 | The controller starts enabled and uncommitted, with zero outputs, no obstacles and zero collisions, and it satisfies the latch invariant. |
| Vehicle.FuzzyLogicController.FixedUpdate | Assets/Scripts/FuzzyLogicController.cs:71-125 | Enabled case:<br>- front distance is measured only when an obstacle is set, else 100;<br>- side obstacles are copied from the detectors, and the side clearances use the 100 sentinel the same way;<br>- outputs and latch advance by one fuzzification step;<br>- the motion log gains the turn, then the drive, then the waypoint facing exactly when the reorientation timer fires;<br>- the accumulator is 0 whenever committed.<br>Disabled case: speed and turn are zeroed and nothing else changes. Both cases keep the latch invariant. |
| Vehicle.FuzzyLogicController.Sense | Assets/Scripts/FuzzyLogicController.cs:76-90 | The front distance is the measured one exactly when an obstacle is set, else 100. The side obstacles are those the side detectors hold. Each clearance is measured only when its obstacle is present, else 100. |
| Vehicle.DriveMotions | Assets/Scripts/FuzzyLogicController.cs:280-284 | Definition: MoveCar's two translations in order. First turn·turnSpeed·dt along forward, then speed·moveSpeed·dt along -right. |
| Vehicle.FuzzyLogicController.OnTriggerEnter | Assets/Scripts/FuzzyLogicController.cs:127-148 | A waypoint marker advances the target to its next waypoint and faces it. An obstacle adds exactly 1 to the collisions. The start line starts the stopwatch. |
| Vehicle.FuzzyLogicController.OnTriggerExit | Assets/Scripts/FuzzyLogicController.cs:150-166 | A finish-line exit stops the stopwatch, disables the controller, copies the time and appends the run's record. Other exits change nothing. |
| Vehicle.FuzzyLogicController.RotationStep | Assets/Scripts/FuzzyLogicController.cs:99-116 | The accumulator and motions advance exactly as the reorientation timer prescribes for the current commitment. |
| Vehicle.FuzzyLogicController.RotateToWaypoint | Assets/Scripts/FuzzyLogicController.cs:168-181 | Records the facing of the current waypoint, or nothing when there is none. |
| Vehicle.FuzzyLogicController.FuzzifyInputs | Assets/Scripts/FuzzyLogicController.cs:183-245 | The outputs and latch become exactly one fuzzification step of the previous ones. |
| Vehicle.FuzzyLogicController.MoveCar | Assets/Scripts/FuzzyLogicController.cs:276-285 | Appends the turn translation, then the drive translation, each scaled by its speed and the frame time. |
| Vehicle.FSMController.constructor | Assets/Scripts/FSMController.cs:12-48 | The controller starts enabled and Idle, with a zero accumulator, zero shift and zero collisions. |
| Vehicle.FSMController.Start | Assets/Scripts/FSMController.cs:50-53 | The state becomes MoveForward. |
| Vehicle.FSMController.FixedUpdate | Assets/Scripts/FSMController.cs:55-85 | Enabled case: the state advances as the state handler prescribes, and the motions gain the handler's translation and then the waypoint facing when the timer fires. The accumulator is 0 after a tick in an avoid state.<br>Disabled case: the state becomes Idle and nothing else changes. |
| Vehicle.FSMController.OnTriggerEnter | Assets/Scripts/FSMController.cs:87-108 | A waypoint marker advances the target to its next waypoint and faces it. An obstacle adds exactly 1 to the collisions in any state. The start line starts the stopwatch. |
| Vehicle.FSMController.OnTriggerExit | Assets/Scripts/FSMController.cs:110-126 | A finish-line exit stops the stopwatch, disables the controller, copies the time and appends the run's record. Other exits change nothing. |
| Vehicle.FSMController.HandleStates | Assets/Scripts/FSMController.cs:138-158 | The state, accumulator and motions change exactly as the transition and motion functions prescribe for the current state. |
| Vehicle.FSMController.RotateToWaypoint | Assets/Scripts/FSMController.cs:160-173 | Records the facing of the current waypoint, or nothing when there is none. |
| Vehicle.FSMController.CheckObstacles | Assets/Scripts/FSMController.cs:175-194 | The shift is half the front obstacle's width plus half the agent's width. The state becomes the avoidance choice for the side detectors' occupancy. |
| Vehicle.FSMController.PathClear | Assets/Scripts/FSMController.cs:196-199 | Returns whether the front detector is occupied (the name is inverted) and changes nothing. |
| Vehicle.FSMController.MoveForward | Assets/Scripts/FSMController.cs:201-204 | Appends a drive along -right of moveSpeed·dt. |
| Vehicle.FSMController.AvoidLeft | Assets/Scripts/FSMController.cs:206-222 | With a zero shift: MoveForward, with no motion and the accumulator untouched.<br>Otherwise: the shift along -forward is appended, the accumulator is zeroed, and the state becomes MoveForward exactly when the front is unoccupied. |
| Vehicle.FSMController.AvoidRight | Assets/Scripts/FSMController.cs:224-240 | Same as AvoidLeft, with the shift along +forward. |
| Vehicle.Bounds.constructor | Assets/Scripts/Bounds.cs:12-22 | A new detector is unoccupied, with no obstacle and no width. |
| Vehicle.Bounds.Start | Assets/Scripts/Bounds.cs:28-34 | Records the agent's controllers, if any. |
| Vehicle.Bounds.Accepts | Assets/Scripts/Bounds.cs:41 | Definition: the event filter of both handlers (Bounds.cs:41, 63, 78 and 92). A front detector matches the tag; a side detector matches the layer mask. |
| Vehicle.Bounds.OnTriggerEnter | Assets/Scripts/Bounds.cs:36-71 | Front, matching tag:<br>- the detector becomes occupied and records the width, without writing its obstacle;<br>- the finite-state controller gets the CheckObstacles shift and choice;<br>- the fuzzy controller's obstacle is set.<br>Side, layer in mask: the detector becomes occupied and records the obstacle, without writing the width or touching the controllers.<br>A filtered-out event changes nothing. |
| Vehicle.Bounds.OnTriggerExit | Assets/Scripts/Bounds.cs:73-99 | Front, matching tag: occupancy is cleared (even if another object still overlaps) and the fuzzy controller's obstacle is cleared. The width is kept.<br>Side, layer in mask: occupancy and obstacle are cleared.<br>A filtered-out event changes nothing. |

## Left out

- Geometry is left out: `ClosestPointOnBounds` distances, `Translate` vectors, and `Quaternion.LookRotation` with its +90° offset. Distances are parameters. Motions are recorded as abstract log entries.
- The zero-direction check in `RotateToWaypoint` is not modelled. A facing is recorded whenever a waypoint exists.
- Display output is left out: TextMeshPro texts, renderer colours, gizmos and `Debug.Log`/`LogError`.
- The `enabled` early returns and the `GetComponent*` lookups are left out. The controllers a detector notifies are passed to `Bounds.Start`. The stopwatch instance is passed to the trigger handlers.
- The sensor repositioning in the fuzzy controller's `Start` is transform setup only and is left out.
- `Destroy` of a duplicate stopwatch is left out. Only the registration decision is modelled.
- The static `Timer.instance` is an explicit `TimerRegistry` object.
- The results file is a sequence of records rather than text lines. The scene name is the `trackName` parameter.
- `Time.deltaTime` is a parameter of every tick method.
- IEEE `float` behaviour (rounding, NaN, infinities) is not modelled. Arithmetic is over `real`, and 0.2f is taken as exactly 0.2. The `Mathf.Infinity` trapezoid parameters are modelled as a shoulder set with no falling edge.
- The `int` collision counters are unbounded. 32-bit overflow is not modelled.
- A "waypoint" trigger whose object has no `Waypoint` parent is a null dereference in the code. Here the handler returns at that point and changes nothing further.
- `distanceToWaypoint`, `waypointThreshold` and `carFront`/`carLeft`/`carRight` are never read by the modelled logic and are left out.
- Assets/Scripts/GameManager.cs is engine scene management and is not part of this model. Of Assets/Scripts/Waypoint.cs only the successor reference is kept; its gizmo drawing is left out.
- Vehicle.FuzzyLogicController.Valid: the latch invariant is claimed only while the controller is enabled. A disabled tick zeroes `turn` and can leave `isCommitted` set.
- Vehicle.FSMController.CheckObstacles: it can still be called by the front detector after the finish line. The state is then briefly an avoid state until the next tick forces Idle again. The model keeps this behaviour.
- The finish-line handlers are not idempotent. A second finish-line exit appends a second record, as the code does.
