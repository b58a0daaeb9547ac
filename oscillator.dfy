/**
 * The moving block's motion: Unity's Mathf.Repeat and Mathf.PingPong, over exact
 * reals, and the triangle wave MoveBlock evaluates from them.
 */
module Oscillator {
  import opened Geometry

  /** Facts about the floor of `t / length` that every fold below relies on. */
  lemma FloorBounds(t: real, length: real)
    requires length > 0.0
    ensures (t / length).Floor as real * length <= t < (t / length).Floor as real * length + length
  {
    var q := t / length;
    var k := q.Floor as real;
    assert k <= q < k + 1.0;
    DivMul(t, length);
    MulMonotone(k, q, length);
    MulStrict(q, k + 1.0, length);
    assert t < (k + 1.0) * length;
    Distribute(k, length);
    assert t < k * length + length;
  }

  lemma DivMul(t: real, length: real)
    requires length > 0.0
    ensures t / length * length == t
  {
  }

  lemma Distribute(k: real, length: real)
    ensures (k + 1.0) * length == k * length + length
  {
  }

  lemma MulMonotone(a: real, b: real, c: real)
    requires a <= b && c > 0.0
    ensures a * c <= b * c
  {
    assert (b - a) * c >= 0.0;
  }

  lemma MulStrict(a: real, b: real, c: real)
    requires a < b && c > 0.0
    ensures a * c < b * c
  {
    assert (b - a) * c > 0.0;
  }

  lemma MulCancel(a: real, b: real, c: real)
    requires c > 0.0 && a * c == b * c
    ensures a == b
  {
    if a < b {
      MulStrict(a, b, c);
    } else if b < a {
      MulStrict(b, a, c);
    }
  }

  /**
   * Mathf.Repeat: `t - Floor(t / length) * length`, which lies in [0, length).
   * Unity clamps this into [0, length]; on exact reals the clamp never acts.
   */
  function Repeat(t: real, length: real): (r: real)
    requires length > 0.0
    ensures 0.0 <= r < length
  {
    FloorBounds(t, length);
    t - (t / length).Floor as real * length
  }

  /** On [0, length) the fold is the identity. */
  lemma {:induction false} RepeatIdentity(t: real, length: real)
    requires length > 0.0 && 0.0 <= t < length
    ensures Repeat(t, length) == t
  {
    var q := t / length;
    DivMul(t, length);
    if q < 0.0 {
      MulStrict(q, 0.0, length);
    }
    if q >= 1.0 {
      MulMonotone(1.0, q, length);
    }
    assert 0.0 <= q < 1.0;
    assert q.Floor == 0;
  }

  /** The fold has period `length`. */
  lemma {:induction false} RepeatPeriodic(t: real, length: real)
    requires length > 0.0
    ensures Repeat(t + length, length) == Repeat(t, length)
  {
    var q := t / length;
    var d := (t + length) / length;
    DivMul(t, length);
    DivMul(t + length, length);
    Distribute(q, length);
    MulCancel(d, q + 1.0, length);
    assert (q + 1.0).Floor == q.Floor + 1;
  }

  /**
   * Mathf.PingPong: `length - |Repeat(t, 2 * length) - length|`, a value that
   * climbs from 0 to `length` and falls back again.
   */
  function PingPong(t: real, length: real): (r: real)
    requires length > 0.0
    ensures 0.0 <= r <= length
  {
    length - Abs(Repeat(t, length * 2.0) - length)
  }

  /** Rising half of the wave: on [0, length] PingPong returns its argument. */
  lemma {:induction false} PingPongRising(t: real, length: real)
    requires length > 0.0 && 0.0 <= t <= length
    ensures PingPong(t, length) == t
  {
    RepeatIdentity(t, length * 2.0);
  }

  /** Falling half of the wave: on [length, 2 * length] PingPong returns `2 * length - t`. */
  lemma {:induction false} PingPongFalling(t: real, length: real)
    requires length > 0.0 && length <= t <= 2.0 * length
    ensures PingPong(t, length) == 2.0 * length - t
  {
    if t < 2.0 * length {
      RepeatIdentity(t, length * 2.0);
    } else {
      RepeatPeriodic(0.0, length * 2.0);
      RepeatIdentity(0.0, length * 2.0);
    }
  }

  /** The wave repeats every `2 * length`, so the two halves above describe it everywhere. */
  lemma {:induction false} PingPongPeriodic(t: real, length: real)
    requires length > 0.0
    ensures PingPong(t + 2.0 * length, length) == PingPong(t, length)
  {
    assert t + 2.0 * length == t + length * 2.0;
    RepeatPeriodic(t, length * 2.0);
  }

  /** The active-axis coordinate MoveBlock assigns: `PingPong(time * speed, bounds * 2) - bounds`. */
  function Oscillate(time: real, speed: real, bounds: real): (r: real)
    requires bounds > 0.0
    ensures -bounds <= r <= bounds
  {
    PingPong(time * speed, bounds * 2.0) - bounds
  }

  /** The motion is periodic with period `4 * bounds / speed`. */
  lemma {:induction false} OscillatePeriodic(time: real, speed: real, bounds: real)
    requires bounds > 0.0 && speed > 0.0
    ensures Oscillate(time + 4.0 * bounds / speed, speed, bounds) == Oscillate(time, speed, bounds)
  {
    DivMul(4.0 * bounds, speed);
    assert (time + 4.0 * bounds / speed) * speed == time * speed + 4.0 * bounds / speed * speed;
    PingPongPeriodic(time * speed, bounds * 2.0);
  }

  /** The block is at `-bounds` when the raw value `time * speed` is 0 and at `+bounds` when it is `2 * bounds`. */
  lemma {:induction false} OscillateTurningPoints(time: real, speed: real, bounds: real)
    requires bounds > 0.0
    ensures time * speed == 0.0 ==> Oscillate(time, speed, bounds) == -bounds
    ensures time * speed == 2.0 * bounds ==> Oscillate(time, speed, bounds) == bounds
  {
    PingPongRising(0.0, bounds * 2.0);
    PingPongRising(bounds * 2.0, bounds * 2.0);
  }
}
