/**
 * The Unity `Mathf` and `Vector3` helpers the puppet scripts call, over `real`
 * and by their documented formulas (float rounding is not modelled).
 */
module UnityMath {

  /** `Mathf.Clamp(value, min, max)`: `min` when below it, else `max` when above it. */
  function Clamp(value: real, min: real, max: real): (r: real)
    ensures min <= max ==> min <= r <= max
    ensures min <= value <= max ==> r == value
    ensures value < min ==> r == min
    ensures min <= max && value > max ==> r == max
  {
    if value < min then min else if value > max then max else value
  }

  /** `Mathf.Clamp01(value)`. */
  function Clamp01(value: real): (r: real)
    ensures 0.0 <= r <= 1.0
    ensures 0.0 <= value <= 1.0 ==> r == value
  {
    Clamp(value, 0.0, 1.0)
  }

  /** `x` and `y` differ by a whole number of turns of 360 degrees. */
  predicate Congruent360(x: real, y: real)
  {
    var q := (x - y) / 360.0;
    q.Floor as real == q
  }

  /** `Mathf.Repeat(t, 360)`: `t` wrapped into [0, 360). */
  function Repeat360(t: real): (r: real)
    ensures 0.0 <= r < 360.0
    ensures Congruent360(r, t)
  {
    var q := (t / 360.0).Floor;
    var w := t - q as real * 360.0;
    assert 0.0 <= w < 360.0 by {
      assert q as real <= t / 360.0 < q as real + 1.0;
      assert (t / 360.0) * 360.0 == t;
    }
    assert Congruent360(w, t) by {
      assert (w - t) / 360.0 == (-q) as real;
      assert ((-q) as real).Floor == -q;
    }
    assert Clamp(w, 0.0, 360.0) == w;
    Clamp(w, 0.0, 360.0)
  }

  /**
   * `Mathf.DeltaAngle(current, target)`: the shortest signed angle from
   * `current` to `target`, in (-180, 180] and a whole number of turns away
   * from `target - current`.
   */
  function DeltaAngle(current: real, target: real): (r: real)
    ensures -180.0 < r <= 180.0
    ensures Congruent360(r, target - current)
  {
    var num := Repeat360(target - current);
    if num > 180.0 then
      CongruentShift(num, target - current, -1);
      num - 360.0
    else num
  }

  /** `Mathf.LerpAngle(a, b, t)`: `a` moved by the fraction `Clamp01(t)` of the shortest turn towards `b`. */
  function LerpAngle(a: real, b: real, t: real): real
  {
    a + DeltaAngle(a, b) * Clamp01(t)
  }

  /** `Mathf.Lerp(a, b, t)` with `t` clamped to [0, 1]. */
  function Lerp(a: real, b: real, t: real): real
  {
    a + (b - a) * Clamp01(t)
  }

  /** `x` lies on the closed segment between `a` and `b`, whichever is larger. */
  predicate Between(x: real, a: real, b: real)
  {
    (a <= x <= b) || (b <= x <= a)
  }

  /** A position in the scene (`UnityEngine.Vector3`). */
  datatype Vec3 = Vec3(x: real, y: real, z: real)

  /** `Vector3.Lerp(a, b, t)`: component-wise `Lerp`, `t` clamped to [0, 1]. */
  function Lerp3(a: Vec3, b: Vec3, t: real): Vec3
  {
    Vec3(Lerp(a.x, b.x, t), Lerp(a.y, b.y, t), Lerp(a.z, b.z, t))
  }

  // ----- properties -----

  /** Adding `k` whole turns keeps congruence. */
  lemma CongruentShift(x: real, y: real, k: int)
    requires Congruent360(x, y)
    ensures Congruent360(x + 360.0 * k as real, y)
  {
    var q := (x - y) / 360.0;
    assert (x + 360.0 * k as real - y) / 360.0 == q + k as real;
    assert (q + k as real).Floor == q.Floor + k;
  }

  /** Two congruent values in the same half-open turn (-180, 180] are equal. */
  lemma CongruentInHalfTurn(x: real, y: real)
    requires -180.0 < x <= 180.0 && -180.0 < y <= 180.0
    requires Congruent360(x, y)
    ensures x == y
  {
    var q := (x - y) / 360.0;
    assert -1.0 < q < 1.0;
    assert q.Floor == 0;
  }

  /** Congruence is symmetric and transitive. */
  lemma CongruentTrans(x: real, y: real, z: real)
    requires Congruent360(x, y) && Congruent360(y, z)
    ensures Congruent360(x, z)
  {
    var p, q := (x - y) / 360.0, (y - z) / 360.0;
    assert (x - z) / 360.0 == p + q;
    assert (p + q).Floor == p.Floor + q.Floor;
  }

  lemma CongruentSym(x: real, y: real)
    requires Congruent360(x, y)
    ensures Congruent360(y, x)
  {
    var p := (x - y) / 360.0;
    assert (y - x) / 360.0 == -p;
    assert (-p).Floor == -p.Floor;
  }

  /**
   * `DeltaAngle` depends only on the difference up to whole turns: whenever
   * `d` already lies in (-180, 180] and is a whole number of turns away from
   * `target - current`, the delta is exactly `d`.
   */
  lemma DeltaAngleIsUnique(current: real, target: real, d: real)
    requires -180.0 < d <= 180.0
    requires Congruent360(d, target - current)
    ensures DeltaAngle(current, target) == d
  {
    var r := DeltaAngle(current, target);
    CongruentSym(d, target - current);
    CongruentTrans(r, target - current, d);
    CongruentInHalfTurn(r, d);
  }

  /** The wrap that motivates `DeltaAngle`: from 179 to -179 is +2 degrees, not -358. */
  lemma DeltaAngleAcrossWrap()
    ensures DeltaAngle(179.0, -179.0) == 2.0
    ensures DeltaAngle(-179.0, 179.0) == -2.0
  {
    assert Congruent360(2.0, -358.0) by { assert (2.0 - -358.0) / 360.0 == 1.0; }
    DeltaAngleIsUnique(179.0, -179.0, 2.0);
    assert Congruent360(-2.0, 358.0) by { assert (-2.0 - 358.0) / 360.0 == -1.0; }
    DeltaAngleIsUnique(-179.0, 179.0, -2.0);
  }

  /** Interpolating an angle towards itself leaves it where it is. */
  lemma LerpAngleFixed(a: real, t: real)
    ensures LerpAngle(a, a, t) == a
  {
    assert Congruent360(0.0, a - a) by { assert (0.0 - (a - a)) / 360.0 == 0.0; }
    DeltaAngleIsUnique(a, a, 0.0);
  }

  /**
   * One `LerpAngle` step shrinks the remaining shortest turn to `target` by the
   * factor `1 - Clamp01(t)`; with `t >= 1` the remaining turn is zero.
   */
  lemma LerpAngleContracts(a: real, b: real, t: real)
    ensures DeltaAngle(LerpAngle(a, b, t), b) == (1.0 - Clamp01(t)) * DeltaAngle(a, b)
  {
    var d, c := DeltaAngle(a, b), Clamp01(t);
    var k := 1.0 - c;
    var e := d * k;
    var out := a + d * c;
    assert LerpAngle(a, b, t) == out;
    ScaleBetween(d, k);
    assert e == d - d * c;
    assert Congruent360(e, b - out) by {
      assert e - (b - out) == d - (b - a);
    }
    DeltaAngleIsUnique(out, b, e);
    assert k * d == e;
  }

  /** `Lerp` lands between its two end points. */
  lemma LerpBetween(a: real, b: real, t: real)
    ensures Between(Lerp(a, b, t), a, b)
  {
    var d, c := b - a, Clamp01(t);
    ScaleBetween(d, c);
    assert Lerp(a, b, t) == a + d * c;
  }

  /** `Lerp` returns its start for `t <= 0` and its end for `t >= 1`. */
  lemma LerpEnds(a: real, b: real, t: real)
    ensures t <= 0.0 ==> Lerp(a, b, t) == a
    ensures t >= 1.0 ==> Lerp(a, b, t) == b
  {
  }

  /** Every coordinate of a `Vector3.Lerp` step lies between the two end points' coordinates. */
  lemma Lerp3Between(a: Vec3, b: Vec3, t: real)
    ensures var r := Lerp3(a, b, t); Between(r.x, a.x, b.x) && Between(r.y, a.y, b.y) && Between(r.z, a.z, b.z)
  {
    LerpBetween(a.x, b.x, t);
    LerpBetween(a.y, b.y, t);
    LerpBetween(a.z, b.z, t);
  }

  /** Scaling by a factor in [0, 1] lands between 0 and the value. */
  lemma ScaleBetween(x: real, c: real)
    requires 0.0 <= c <= 1.0
    ensures Between(x * c, 0.0, x)
  {
    if x >= 0.0 {
      assert x * c <= x * 1.0;
    } else {
      assert (-x) * c <= (-x) * 1.0;
      assert x * c == -((-x) * c);
    }
  }
}
