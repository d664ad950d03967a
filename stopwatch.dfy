/** The run stopwatch: a run flag and an accumulator advanced by the frame
    time while the flag is set, shown as minutes and seconds; the first
    stopwatch to start registers itself as the scene's single instance. */
module Stopwatch {

  /** Minutes and seconds as shown on screen ("Time: mm:ss"). */
  datatype ClockFace = ClockFace(mins: int, secs: int)

  /** The whole quotient the float `%` takes out: `r` rounded toward zero,
      the nearest integer no farther from zero than `r`. */
  function Truncate(r: real): (n: int)
    ensures r >= 0.0 ==> n as real <= r < n as real + 1.0
    ensures r < 0.0 ==> n as real - 1.0 < r <= n as real
  {
    if r >= 0.0 then r.Floor else -((-r).Floor)
  }

  /** The float remainder operator: the result takes the sign of `x`; for a
      non-negative `x` it is what is left after taking out whole multiples of `y`. */
  function Remainder(x: real, y: real): (m: real)
    requires y > 0.0
    ensures x >= 0.0 ==> 0.0 <= m < y && m == x - y * ((x / y).Floor as real)
    ensures x < 0.0 ==> -y < m <= 0.0
  {
    RemainderOfTruncation(x, y);
    x - y * (Truncate(x / y) as real)
  }

  /** Taking Truncate(x / y) multiples of y out of x leaves a remainder of
      the sign of x, smaller than y in magnitude. */
  lemma RemainderOfTruncation(x: real, y: real)
    requires y > 0.0
    ensures var m := x - y * (Truncate(x / y) as real);
      (x >= 0.0 ==> 0.0 <= m < y && m == x - y * ((x / y).Floor as real)) &&
      (x < 0.0 ==> -y < m <= 0.0)
  {
    var q: real := Truncate(x / y) as real;
    if x >= 0.0 {
      PositiveQuotient(x, y);
      RemainderWithin(x, y, q);
    } else {
      NegatedQuotient(x, y);
      RemainderWithin(-x, y, -q);
      assert y * (-q) == -(y * q);
    }
  }

  /** For x >= 0 the quotient is non-negative, so truncating it is flooring it. */
  lemma PositiveQuotient(x: real, y: real)
    requires x >= 0.0 && y > 0.0
    ensures x / y >= 0.0 && Truncate(x / y) == (x / y).Floor
  {
  }

  /** (-x) / y is the negated quotient, so Truncate(x / y) negated bounds it from below. */
  lemma NegatedQuotient(x: real, y: real)
    requires x < 0.0 && y > 0.0
    ensures (-x) / y == -(x / y)
    ensures -(Truncate(x / y) as real) <= (-x) / y < -(Truncate(x / y) as real) + 1.0
  {
    assert -(x / y) * y == -x;
    assert x / y < 0.0;
  }

  /** When q <= x / y < q + 1, taking q multiples of y out of x leaves [0, y). */
  lemma RemainderWithin(x: real, y: real, q: real)
    requires y > 0.0 && q <= x / y < q + 1.0
    ensures 0.0 <= x - y * q < y
  {
    var f := x / y - q;
    assert 0.0 <= f < 1.0;
    assert y * f == x - y * q;
    assert y * f < y by {
      assert y * (1.0 - f) > 0.0;
    }
  }

  /** mins = floor(e / 60), secs = floor(e % 60): for a non-negative elapsed
      time this splits it into whole minutes and the whole seconds left over. */
  function MinutesSeconds(e: real): (face: ClockFace)
    ensures e >= 0.0 ==> 0 <= face.secs <= 59 && 0 <= face.mins
    ensures e >= 0.0 ==> (face.mins * 60 + face.secs) as real <= e < (face.mins * 60 + face.secs + 1) as real
  {
    ClockFace((e / 60.0).Floor, Remainder(e, 60.0).Floor)
  }

  class Timer {
    var timer: bool
    var elapsedTime: real
    /** What the timer text last showed. */
    var shown: ClockFace

    constructor ()
      ensures !timer && elapsedTime == 0.0 && shown == ClockFace(0, 0)
    {
      timer := false;
      elapsedTime := 0.0;
      shown := ClockFace(0, 0);
    }

    /** Per frame: while running, add the frame time and show the split. */
    method Update(deltaTime: real)
      modifies this`elapsedTime, this`shown
      ensures elapsedTime == if timer then old(elapsedTime) + deltaTime else old(elapsedTime)
      ensures shown == if timer then MinutesSeconds(elapsedTime) else old(shown)
      ensures deltaTime >= 0.0 ==> elapsedTime >= old(elapsedTime)
    {
      if timer {
        elapsedTime := elapsedTime + deltaTime;
        shown := MinutesSeconds(elapsedTime);
      }
    }

    /** The accumulated time; nothing changes. */
    method GetElapsedTime() returns (t: real)
      ensures t == elapsedTime
    {
      t := elapsedTime;
    }

    /** Registers this timer unless another one already is the instance. */
    method Start(registry: TimerRegistry)
      modifies registry
      ensures old(registry.instance) == null || old(registry.instance) == this ==> registry.instance == this
      ensures old(registry.instance) != null && old(registry.instance) != this ==>
                registry.instance == old(registry.instance)
    {
      if registry.instance != null && registry.instance != this {
      } else {
        registry.instance := this;
      }
    }
  }

  /** Holds the scene-wide single timer instance, the static
      `Timer.instance`. */
  class TimerRegistry {
    var instance: Timer?

    constructor ()
      ensures instance == null
    {
      instance := null;
    }
  }
}
