/** The fuzzy controller's inference: trapezoidal membership functions, the
    three distance sets and the side-clearance set, weighted-average
    defuzzification over singleton outputs, the turn and speed rules, and the
    commitment latch that holds a chosen turn until a release condition fires.
    Arithmetic is over `real`. */
module FuzzyLogic {

  function Min(x: real, y: real): real {
    if x <= y then x else y
  }

  // ---------------------------------------------------------------------------
  // Membership functions
  // ---------------------------------------------------------------------------

  /** Degree of membership of `x` in the trapezoid rising over [a, b], flat at 1
      on [b, c], falling over [c, d]. Each ramp is only reached when it has
      positive width, so no division by zero occurs. */
  function TrapezoidalMembership(x: real, a: real, b: real, c: real, d: real): (m: real)
    ensures 0.0 <= m <= 1.0
    ensures x < a || x > d ==> m == 0.0
    ensures m == 1.0 <==> a <= x <= d && b <= x <= c
    ensures a <= b <= c <= d && a <= x < b ==> m * (b - a) == x - a
    ensures a <= b <= c <= d && c < x <= d ==> m * (d - c) == d - x
  {
    if x < a || x > d then 0.0
    else if b <= x <= c then 1.0
    else if x < b then RampBelowOne(x - a, b - a); (x - a) / (b - a)
    else RampBelowOne(d - x, d - c); (d - x) / (d - c)
  }

  /** A ramp's share of its width, short of the top, lies in [0, 1). */
  lemma RampBelowOne(p: real, w: real)
    requires 0.0 <= p < w
    ensures 0.0 <= p / w < 1.0
  {
    assert p / w * w == p;
  }

  /** Left of the plateau the degree never decreases. */
  lemma TrapezoidRises(x: real, y: real, a: real, b: real, c: real, d: real)
    requires a <= b <= c <= d && x <= y <= c
    ensures TrapezoidalMembership(x, a, b, c, d) <= TrapezoidalMembership(y, a, b, c, d)
  {
    if a <= x < b && y < b {
      assert (x - a) / (b - a) <= (y - a) / (b - a) by {
        MonotoneQuotient(x - a, y - a, b - a);
      }
    }
  }

  /** Right of the plateau the degree never increases. */
  lemma TrapezoidFalls(x: real, y: real, a: real, b: real, c: real, d: real)
    requires a <= b <= c <= d && b <= x <= y
    ensures TrapezoidalMembership(x, a, b, c, d) >= TrapezoidalMembership(y, a, b, c, d)
  {
    if c < x <= y <= d {
      assert (d - y) / (d - c) <= (d - x) / (d - c) by {
        MonotoneQuotient(d - y, d - x, d - c);
      }
    }
  }

  lemma MonotoneQuotient(p: real, q: real, w: real)
    requires p <= q && w > 0.0
    ensures p / w <= q / w
  {
  }

  /** A trapezoid whose top edge runs to infinity: parameters (a, b, +inf, +inf). */
  function RisingShoulder(x: real, a: real, b: real): (m: real)
    ensures 0.0 <= m <= 1.0
    ensures x < a ==> m == 0.0
    ensures m == 1.0 <==> a <= x && b <= x
    ensures a <= x < b ==> m * (b - a) == x - a
  {
    if x < a then 0.0
    else if b <= x then 1.0
    else RampBelowOne(x - a, b - a); (x - a) / (b - a)
  }

  /** The shoulder agrees with every trapezoid (a, b, c, d) whose plateau
      reaches past `x`: it is the limit of c, d going to infinity. */
  lemma ShoulderIsUnboundedTrapezoid(x: real, a: real, b: real, c: real, d: real)
    requires b <= c <= d && x <= c
    ensures RisingShoulder(x, a, b) == TrapezoidalMembership(x, a, b, c, d)
  {
  }

  /** Close = trapezoid(0, 0, 2.5, 3.75). */
  function DistanceClose(x: real): (m: real)
    ensures 0.0 <= m <= 1.0
    ensures m == 1.0 <==> 0.0 <= x <= 2.5
    ensures m > 0.0 <==> 0.0 <= x < 3.75
  {
    TrapezoidalMembership(x, 0.0, 0.0, 2.5, 3.75)
  }

  /** Medium = trapezoid(2.5, 5, 7.5, 8.75). */
  function DistanceMedium(x: real): (m: real)
    ensures 0.0 <= m <= 1.0
    ensures m == 1.0 <==> 5.0 <= x <= 7.5
    ensures m > 0.0 <==> 2.5 < x < 8.75
  {
    TrapezoidalMembership(x, 2.5, 5.0, 7.5, 8.75)
  }

  /** Far = trapezoid(7.5, 10, +inf, +inf). */
  function DistanceFar(x: real): (m: real)
    ensures 0.0 <= m <= 1.0
    ensures m == 1.0 <==> 10.0 <= x
    ensures m > 0.0 <==> 7.5 < x
  {
    RisingShoulder(x, 7.5, 10.0)
  }

  /** Wide = trapezoid(0, 3, +inf, +inf), applied to side clearance. */
  function SpaceWide(x: real): (m: real)
    ensures 0.0 <= m <= 1.0
    ensures m == 1.0 <==> 3.0 <= x
    ensures m > 0.0 <==> 0.0 < x
  {
    RisingShoulder(x, 0.0, 3.0)
  }

  // ---------------------------------------------------------------------------
  // Defuzzification: weighted average of singleton outputs
  // ---------------------------------------------------------------------------

  /** Sum of levels[i] * values[i] over the first |levels| rules. */
  function Numerator(levels: seq<real>, values: seq<real>): real
    requires |levels| <= |values|
  {
    if |levels| == 0 then 0.0
    else Numerator(levels[..|levels| - 1], values) + levels[|levels| - 1] * values[|levels| - 1]
  }

  /** Sum of the levels. */
  function Denominator(levels: seq<real>): real {
    if |levels| == 0 then 0.0
    else Denominator(levels[..|levels| - 1]) + levels[|levels| - 1]
  }

  /** The centroid of the singletons `values` weighted by `levels`; 0 when no
      rule fired (the levels do not sum to a positive value). */
  function WeightedAverage(levels: seq<real>, values: seq<real>): (r: real)
    requires |levels| <= |values|
    ensures Denominator(levels) <= 0.0 ==> r == 0.0
    ensures Denominator(levels) > 0.0 ==> r * Denominator(levels) == Numerator(levels, values)
  {
    if Denominator(levels) > 0.0 then Numerator(levels, values) / Denominator(levels) else 0.0
  }

  /** FuzzyLogicController.Defuzzify's loop: accumulate numerator and denominator, divide
      when the denominator is positive. `values` must be at least as long as
      `levels`, as the loop reads values[i] for every level. */
  method Defuzzify(levels: array<real>, values: array<real>) returns (r: real)
    requires levels.Length <= values.Length
    ensures r == WeightedAverage(levels[..], values[..])
  {
    var numerator, denominator := 0.0, 0.0;
    for i := 0 to levels.Length
      invariant numerator == Numerator(levels[..i], values[..])
      invariant denominator == Denominator(levels[..i])
    {
      assert levels[..i + 1][..i] == levels[..i];
      numerator := numerator + levels[i] * values[i];
      denominator := denominator + levels[i];
    }
    assert levels[..levels.Length] == levels[..];
    r := if denominator > 0.0 then numerator / denominator else 0.0;
  }

  /** Defuzzify applied to freshly built arrays holding the rule levels and
      their singleton values, as the array literals at each call site do. */
  method DefuzzifyRules(levels: seq<real>, values: seq<real>) returns (r: real)
    requires |levels| <= |values|
    ensures r == WeightedAverage(levels, values)
  {
    var levelArray := new real[|levels|](i requires 0 <= i < |levels| => levels[i]);
    var valueArray := new real[|values|](i requires 0 <= i < |values| => values[i]);
    assert levelArray[..] == levels && valueArray[..] == values;
    r := Defuzzify(levelArray, valueArray);
  }

  /** With non-negative levels, the numerator lies between the smallest and
      largest singleton scaled by the denominator. */
  lemma {:induction false} NumeratorBetween(levels: seq<real>, values: seq<real>, lo: real, hi: real)
    requires |levels| <= |values|
    requires forall i :: 0 <= i < |levels| ==> 0.0 <= levels[i] && lo <= values[i] <= hi
    ensures lo * Denominator(levels) <= Numerator(levels, values) <= hi * Denominator(levels)
  {
    if |levels| > 0 {
      var n := |levels| - 1;
      NumeratorBetween(levels[..n], values, lo, hi);
      var l, v := levels[n], values[n];
      ScaledBetween(l, v, lo, hi);
      var den := Denominator(levels[..n]);
      assert Numerator(levels, values) == Numerator(levels[..n], values) + l * v;
      assert Denominator(levels) == den + l;
      ScaleSum(lo, den, l);
      ScaleSum(hi, den, l);
    }
  }

  /** k · (a + b) = k · a + b · k. */
  lemma ScaleSum(k: real, a: real, b: real)
    ensures k * (a + b) == k * a + b * k
  {
  }

  /** One rule's contribution lies between its level scaled by lo and by hi. */
  lemma ScaledBetween(l: real, v: real, lo: real, hi: real)
    requires 0.0 <= l && lo <= v <= hi
    ensures l * lo <= l * v <= l * hi
  {
    assert 0.0 <= l * (v - lo) && 0.0 <= l * (hi - v);
  }

  /** Non-negative levels sum to a non-negative value, and to a positive one
      as soon as one of them is positive. */
  lemma {:induction false} DenominatorSign(levels: seq<real>)
    requires forall i :: 0 <= i < |levels| ==> 0.0 <= levels[i]
    ensures 0.0 <= Denominator(levels)
    ensures Denominator(levels) == 0.0 <==> forall i :: 0 <= i < |levels| ==> levels[i] == 0.0
  {
    if |levels| > 0 {
      var n := |levels| - 1;
      DenominatorSign(levels[..n]);
      assert forall i :: 0 <= i < n ==> levels[..n][i] == levels[i];
    }
  }

  /** For non-negative levels the result is 0 exactly when no rule fired, and
      otherwise lies between the smallest and the largest singleton value. */
  lemma WeightedAverageBetween(levels: seq<real>, values: seq<real>, lo: real, hi: real)
    requires |levels| <= |values|
    requires forall i :: 0 <= i < |levels| ==> 0.0 <= levels[i] && lo <= values[i] <= hi
    ensures (forall i :: 0 <= i < |levels| ==> levels[i] == 0.0) ==> WeightedAverage(levels, values) == 0.0
    ensures (exists i :: 0 <= i < |levels| && levels[i] > 0.0) ==>
              lo <= WeightedAverage(levels, values) <= hi
  {
    DenominatorSign(levels);
    NumeratorBetween(levels, values, lo, hi);
    var den, num := Denominator(levels), Numerator(levels, values);
    if den > 0.0 {
      QuotientBetween(num, den, lo, hi);
    }
  }

  /** Dividing bounds lo·den <= num <= hi·den by a positive den. */
  lemma QuotientBetween(num: real, den: real, lo: real, hi: real)
    requires den > 0.0 && lo * den <= num <= hi * den
    ensures lo <= num / den <= hi
  {
    var q := num / den;
    assert q * den == num;
    assert (q - lo) * den >= 0.0;
    assert (hi - q) * den >= 0.0;
  }

  lemma OneSums(l0: real, v0: real, values: seq<real>)
    requires |values| >= 1 && values[0] == v0
    ensures Denominator([l0]) == l0
    ensures Numerator([l0], values) == l0 * v0
  {
    assert [l0][..0] == [];
  }

  lemma TripleSums(l0: real, l1: real, l2: real, v0: real, v1: real, v2: real)
    ensures Denominator([l0, l1, l2]) == l0 + l1 + l2
    ensures Numerator([l0, l1, l2], [v0, v1, v2]) == l0 * v0 + l1 * v1 + l2 * v2
  {
    OneSums(l0, v0, [v0, v1, v2]);
    assert [l0, l1][..1] == [l0];
    assert Denominator([l0, l1]) == l0 + l1;
    assert Numerator([l0, l1], [v0, v1, v2]) == l0 * v0 + l1 * v1;
    assert [l0, l1, l2][..2] == [l0, l1];
  }

  // ---------------------------------------------------------------------------
  // Rules
  // ---------------------------------------------------------------------------

  /** Front distance used when no obstacle is in front (and side clearance
      when no obstacle is beside). */
  const NoObstacleDistance: real := 100.0
  /** A commitment is released once the front is this far away... */
  const ReleaseDistance: real := 20.0
  /** ...or once the committed side's clearance is down to this. */
  const ReleaseClearance: real := 0.2

  /** Speed rules: Stop = Close at 0, Slow = Medium at 0.5, Fast = Far at 1. */
  function SpeedOutput(distance: real): real {
    WeightedAverage([DistanceClose(distance), DistanceMedium(distance), DistanceFar(distance)],
                    [0.0, 0.5, 1.0])
  }

  /** Turn rules on an uncommitted tick: the side with more clearance (ties to
      the left) is the candidate; sharp turn = min(Close, Wide) at 1, slight
      turn = min(Medium, Wide) at 0.5, negative for left, positive for right. */
  function TurnOutput(distance: real, leftSpace: real, rightSpace: real): real {
    var close, medium := DistanceClose(distance), DistanceMedium(distance);
    if leftSpace >= rightSpace then
      var wideLeft := SpaceWide(leftSpace);
      WeightedAverage([Min(close, wideLeft), Min(medium, wideLeft)], [-1.0, -0.5])
    else
      var wideRight := SpaceWide(rightSpace);
      WeightedAverage([Min(close, wideRight), Min(medium, wideRight)], [1.0, 0.5])
  }

  /** The commitment release condition, read with the turn currently held. */
  predicate Releases(distance: real, turn: real, leftSpace: real, rightSpace: real) {
    || distance > ReleaseDistance
    || (turn < 0.0 && leftSpace <= ReleaseClearance)
    || (turn > 0.0 && rightSpace <= ReleaseClearance)
  }

  /** Speed lies in [0, 1]. */
  lemma SpeedInUnitRange(distance: real)
    ensures 0.0 <= SpeedOutput(distance) <= 1.0
  {
    var levels := [DistanceClose(distance), DistanceMedium(distance), DistanceFar(distance)];
    WeightedAverageBetween(levels, [0.0, 0.5, 1.0], 0.0, 1.0);
  }

  /** Up to 2.5 (Close only, or nothing at all below 0) the car stops. */
  lemma SpeedStopsWhenClose(distance: real)
    requires distance <= 2.5
    ensures SpeedOutput(distance) == 0.0
  {
    TripleSums(DistanceClose(distance), DistanceMedium(distance), DistanceFar(distance), 0.0, 0.5, 1.0);
  }

  /** From 10 on, including the no-obstacle sentinel, the car runs at full speed. */
  lemma SpeedFullWhenClear(distance: real)
    requires distance >= 10.0
    ensures SpeedOutput(distance) == 1.0
  {
    TripleSums(DistanceClose(distance), DistanceMedium(distance), DistanceFar(distance), 0.0, 0.5, 1.0);
  }

  /** A turn value the controller can commit to: a left turn in [-1, -0.5] or
      a right turn in [0.5, 1]. */
  predicate IsTurnValue(t: real) {
    -1.0 <= t <= -0.5 || 0.5 <= t <= 1.0
  }

  /** On an uncommitted tick the turn goes to the side with more clearance
      (ties to the left) and is either 0 or a committable value on that side. */
  lemma TurnTowardsWiderSide(distance: real, leftSpace: real, rightSpace: real)
    ensures var t := TurnOutput(distance, leftSpace, rightSpace);
            && (leftSpace >= rightSpace ==> t == 0.0 || -1.0 <= t <= -0.5)
            && (leftSpace < rightSpace ==> t == 0.0 || 0.5 <= t <= 1.0)
  {
    var close, medium := DistanceClose(distance), DistanceMedium(distance);
    if leftSpace >= rightSpace {
      var w := SpaceWide(leftSpace);
      WeightedAverageBetween([Min(close, w), Min(medium, w)], [-1.0, -0.5], -1.0, -0.5);
    } else {
      var w := SpaceWide(rightSpace);
      WeightedAverageBetween([Min(close, w), Min(medium, w)], [1.0, 0.5], 0.5, 1.0);
    }
  }

  /** The turn is non-zero exactly when the front obstacle is within the
      Close or Medium range and the chosen side has some clearance. In
      particular beyond 8.75 the car never turns. */
  lemma TurnNonZeroIff(distance: real, leftSpace: real, rightSpace: real)
    ensures TurnOutput(distance, leftSpace, rightSpace) != 0.0 <==>
              0.0 <= distance < 8.75 && (if leftSpace >= rightSpace then leftSpace else rightSpace) > 0.0
  {
    var close, medium := DistanceClose(distance), DistanceMedium(distance);
    var space := if leftSpace >= rightSpace then leftSpace else rightSpace;
    var w := SpaceWide(space);
    var levels := [Min(close, w), Min(medium, w)];
    var values := if leftSpace >= rightSpace then [-1.0, -0.5] else [1.0, 0.5];
    var lo := if leftSpace >= rightSpace then -1.0 else 0.5;
    var hi := if leftSpace >= rightSpace then -0.5 else 1.0;
    WeightedAverageBetween(levels, values, lo, hi);
    assert levels[0] == Min(close, w) && levels[1] == Min(medium, w);
    assert TurnOutput(distance, leftSpace, rightSpace) == WeightedAverage(levels, values);
  }

  // ---------------------------------------------------------------------------
  // The commitment latch
  // ---------------------------------------------------------------------------

  /** The controller's outputs and latch, carried from tick to tick. */
  datatype Outputs = Outputs(speed: real, turn: real, isCommitted: bool, commitmentDirection: real)

  /** A committed controller holds its turn, which is a committable non-zero
      value; outputs stay in range. */
  predicate LatchInvariant(o: Outputs) {
    && 0.0 <= o.speed <= 1.0
    && -1.0 <= o.turn <= 1.0
    && (o.isCommitted ==> o.turn == o.commitmentDirection && IsTurnValue(o.turn))
  }

  /** One fuzzification step: release or hold a commitment, or (uncommitted)
      compute a turn and commit to it when it is non-zero; speed every tick. */
  function FuzzifyStep(o: Outputs, distance: real, leftSpace: real, rightSpace: real): Outputs {
    var speed := SpeedOutput(distance);
    if o.isCommitted then
      if Releases(distance, o.turn, leftSpace, rightSpace) then o.(speed := speed, isCommitted := false)
      else o.(speed := speed, turn := o.commitmentDirection)
    else
      var turn := TurnOutput(distance, leftSpace, rightSpace);
      if turn != 0.0 then Outputs(speed, turn, true, turn)
      else o.(speed := speed, turn := turn)
  }

  /** Every fuzzification step keeps the latch invariant. */
  lemma FuzzifyStepKeepsLatch(o: Outputs, distance: real, leftSpace: real, rightSpace: real)
    requires LatchInvariant(o)
    ensures LatchInvariant(FuzzifyStep(o, distance, leftSpace, rightSpace))
  {
    SpeedInUnitRange(distance);
    TurnTowardsWiderSide(distance, leftSpace, rightSpace);
  }

  /** A committed tick either releases, keeping the previous turn, or holds the
      committed direction; a non-zero turn on an uncommitted tick commits to it. */
  lemma LatchTransitions(o: Outputs, distance: real, leftSpace: real, rightSpace: real)
    requires LatchInvariant(o)
    ensures var o' := FuzzifyStep(o, distance, leftSpace, rightSpace);
            && o'.speed == SpeedOutput(distance)
            && (o.isCommitted ==> o'.turn == o.turn && o'.commitmentDirection == o.commitmentDirection)
            && (o.isCommitted ==> (o'.isCommitted <==> !Releases(distance, o.turn, leftSpace, rightSpace)))
            && (!o.isCommitted ==> o'.turn == TurnOutput(distance, leftSpace, rightSpace))
            && (!o.isCommitted ==> (o'.isCommitted <==> o'.turn != 0.0))
            && (o'.isCommitted ==> o'.commitmentDirection == o'.turn)
  {
  }

  /** The sensed inputs of one tick. */
  datatype Reading = Reading(distance: real, leftSpace: real, rightSpace: real)

  /** Successive fuzzification steps over a series of readings. */
  function Run(o: Outputs, readings: seq<Reading>): Outputs
    decreases |readings|
  {
    if readings == [] then o
    else
      var r := readings[0];
      Run(FuzzifyStep(o, r.distance, r.leftSpace, r.rightSpace), readings[1..])
  }

  /** Once a turn is committed, every later tick reproduces exactly that turn
      as long as no reading meets the release condition. */
  lemma {:induction false} CommitmentHoldsUntilRelease(o: Outputs, readings: seq<Reading>)
    requires LatchInvariant(o) && o.isCommitted
    requires forall k :: 0 <= k < |readings| ==>
               !Releases(readings[k].distance, o.turn, readings[k].leftSpace, readings[k].rightSpace)
    ensures var o' := Run(o, readings);
            o'.isCommitted && o'.turn == o.turn && o'.commitmentDirection == o.commitmentDirection
    decreases |readings|
  {
    if readings != [] {
      var r := readings[0];
      var next := FuzzifyStep(o, r.distance, r.leftSpace, r.rightSpace);
      FuzzifyStepKeepsLatch(o, r.distance, r.leftSpace, r.rightSpace);
      assert next.isCommitted && next.turn == o.turn;
      forall k | 0 <= k < |readings[1..]|
        ensures !Releases(readings[1..][k].distance, next.turn, readings[1..][k].leftSpace, readings[1..][k].rightSpace)
      {
        assert readings[1..][k] == readings[k + 1];
      }
      CommitmentHoldsUntilRelease(next, readings[1..]);
    }
  }

  /** The latch invariant holds after any number of ticks. */
  lemma {:induction false} RunKeepsLatch(o: Outputs, readings: seq<Reading>)
    requires LatchInvariant(o)
    ensures LatchInvariant(Run(o, readings))
    decreases |readings|
  {
    if readings != [] {
      var r := readings[0];
      FuzzifyStepKeepsLatch(o, r.distance, r.leftSpace, r.rightSpace);
      RunKeepsLatch(FuzzifyStep(o, r.distance, r.leftSpace, r.rightSpace), readings[1..]);
    }
  }
}
