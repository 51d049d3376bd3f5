/**
 * Cursor motion and scrolling. Stick axes are on the native scale
 * (`get_axis * 32767`); the stick displacement comes from a square-root
 * speed formula that is an input here. The cursor is set to the
 * truncation toward zero of the target, and the fraction is carried to the
 * next tick, so sub-pixel speeds add up over time. Reals stand in, exactly,
 * for Python's floats.
 */
module Motion {
  import opened Events

  const DeadZone: int := 4000
  const ScrollDeadZone: int := 5000
  const AxisScale: real := 32767.0
  const ScrollFactor: real := 0.005

  /** Python's `int(r)` on a float: truncation toward zero. */
  function Trunc(r: real): (t: int)
    ensures r >= 0.0 ==> t as real <= r < t as real + 1.0
    ensures r < 0.0 ==> t as real - 1.0 < r <= t as real
  {
    if r >= 0.0 then r.Floor else -((-r).Floor)
  }

  function Abs(r: real): real {
    if r < 0.0 then -r else r
  }

  /** The stick is outside the dead zone: `ax² + ay² > 4000²`, strictly. */
  predicate OutsideDeadZone(ax: real, ay: real) {
    ax * ax + ay * ay > (DeadZone * DeadZone) as real
  }

  /** The displacement actually applied: none inside the dead zone. */
  function Displacement(ax: real, ay: real, dx: real, dy: real): (real, real) {
    if OutsideDeadZone(ax, ay) then (dx, dy) else (0.0, 0.0)
  }

  /**
   * One axis of one tick: the coordinate the cursor is set to and the new
   * remainder. Together they are the target exactly; the remainder is less
   * than one in size and has the target's sign.
   */
  function Carry(pos: int, d: real, rest: real): (r: (int, real))
    ensures r.0 as real + r.1 == pos as real + d + rest
    ensures -1.0 < r.1 < 1.0
    ensures pos as real + d + rest >= 0.0 ==> r.1 >= 0.0
    ensures pos as real + d + rest < 0.0 ==> r.1 <= 0.0
  {
    var target := pos as real + d + rest;
    (Trunc(target), target - Trunc(target) as real)
  }

  /**
   * Inside the dead zone the cursor stays where it is and the remainder is
   * kept, as long as the remainder has the coordinate's sign.
   */
  lemma DeadZoneKeepsCursor(pos: int, rest: real)
    requires (pos >= 0 && 0.0 <= rest < 1.0) || (pos <= 0 && -1.0 < rest <= 0.0)
    ensures Carry(pos, 0.0, rest) == (pos, rest)
  {
    var target := pos as real + 0.0 + rest;
    var t := Trunc(target);
    if target >= 0.0 {
      assert t as real <= target < t as real + 1.0;
      assert pos as real <= target < pos as real + 1.0;
      assert t <= pos && pos <= t;
    } else {
      assert t as real - 1.0 < target <= t as real;
      assert pos as real - 1.0 < target <= pos as real;
      assert t <= pos && pos <= t;
    }
  }

  /**
   * But when the cursor has crossed to the other side of 0 since the
   * remainder was made, the re-truncation moves it by one even inside the
   * dead zone.
   */
  lemma DeadZoneAcrossZeroMoves()
    ensures Carry(-3, 0.0, 0.5) == (-2, -0.5)
  {
  }

  /**
   * `n` ticks with the same displacement, each reading back the position the
   * previous one set.
   */
  function Glide(pos: int, rest: real, d: real, n: nat): (int, real)
    decreases n
  {
    if n == 0 then (pos, rest)
    else
      var before := Glide(pos, rest, d, n - 1);
      Carry(before.0, d, before.1)
  }

  /**
   * No motion is lost: after `n` ticks the position plus the remainder is the
   * start plus `n` displacements exactly, so the cursor is always within one
   * pixel of the real-valued path.
   */
  lemma {:induction false} GlideLosesNothing(pos: int, rest: real, d: real, n: nat)
    requires -1.0 < rest < 1.0
    ensures Glide(pos, rest, d, n).0 as real + Glide(pos, rest, d, n).1 == pos as real + rest + n as real * d
    ensures -1.0 < Glide(pos, rest, d, n).1 < 1.0
    decreases n
  {
    if n > 0 {
      var m := n - 1;
      var before := Glide(pos, rest, d, m);
      GlideLosesNothing(pos, rest, d, m);
      var after := Carry(before.0, d, before.1);
      assert Glide(pos, rest, d, n) == after;
      OneMoreStep(pos as real + rest, before.0 as real + before.1, after.0 as real + after.1, d, m, n);
    }
  }

  /** The arithmetic of one more tick of a glide. */
  lemma OneMoreStep(start: real, before: real, after: real, d: real, m: nat, n: nat)
    requires n == m + 1
    requires before == start + m as real * d
    requires after == before + d
    ensures after == start + n as real * d
  {
    assert m as real * d + d == n as real * d;
  }

  /** A forward displacement under one pixel moves a cursor at x >= 0 by 0 or 1 pixel per tick. */
  lemma SmallStepMovesZeroOrOne(pos: int, rest: real, d: real)
    requires pos >= 0 && 0.0 <= rest < 1.0 && 0.0 <= d < 1.0
    ensures Carry(pos, d, rest).0 == pos || Carry(pos, d, rest).0 == pos + 1
    ensures 0.0 <= Carry(pos, d, rest).1 < 1.0
  {
  }

  /** A cursor part `t` and a fraction in [0, 1) that add up to `x` are `int(x)` and its rest. */
  lemma TruncFromParts(t: int, f: real, x: real)
    requires t >= 0 && 0.0 <= f < 1.0 && t as real + f == x
    ensures Trunc(x) == t
  {
  }

  /**
   * A forward glide from the origin is at `int(n * d)` after `n` ticks: the
   * cursor falls behind the exact path by less than one pixel and never
   * loses the fraction, e.g. 0.4 pixel for 10 ticks makes exactly 4 pixels.
   */
  lemma {:induction false} GlideFromOrigin(d: real, n: nat)
    requires d >= 0.0
    ensures Glide(0, 0.0, d, n).0 >= 0 && Glide(0, 0.0, d, n).1 >= 0.0
    ensures Glide(0, 0.0, d, n).0 == Trunc(n as real * d)
    decreases n
  {
    GlideLosesNothing(0, 0.0, d, n);
    if n > 0 {
      var m := n - 1;
      GlideFromOrigin(d, m);
      var before := Glide(0, 0.0, d, m);
      var after := Carry(before.0, d, before.1);
      assert Glide(0, 0.0, d, n) == after;
      assert before.0 as real + d + before.1 >= 0.0;
    }
    var g := Glide(0, 0.0, d, n);
    TruncFromParts(g.0, g.1, n as real * d);
  }

  /**
   * The scroll wheel: when the right stick's vertical axis is past the
   * scroll dead zone, `int(axis * 0.005)` clicks, every tick.
   */
  function ScrollEvents(axis: real): (r: seq<Event>)
    ensures r != [] <==> Abs(axis) > ScrollDeadZone as real
    ensures |r| <= 1
  {
    if Abs(axis) > ScrollDeadZone as real then [Scroll(Trunc(axis * ScrollFactor))] else []
  }

  /** A scroll always goes at least 25 clicks in the stick's direction. */
  lemma ScrollFollowsStick(axis: real)
    ensures axis > ScrollDeadZone as real ==> ScrollEvents(axis) == [Scroll(ScrollEvents(axis)[0].amount)] && ScrollEvents(axis)[0].amount >= 25
    ensures axis < -ScrollDeadZone as real ==> ScrollEvents(axis)[0].amount <= -25
  {
  }
}
