/** Numeric building blocks shared by the particle engine: optional values,
    random draws, sums, the distance used by every force, and the linear
    fall-off that all three radial forces share. */
module Basics {

  datatype Option<+T> = None | Some(value: T)

  /** One draw of the host's uniform random source: a real in [0, 1). */
  type Unit = r: real | 0.0 <= r < 1.0

  function Abs(x: real): real {
    if x < 0.0 then -x else x
  }

  function Min(a: real, b: real): real {
    if a <= b then a else b
  }

  function Max(a: real, b: real): real {
    if a <= b then b else a
  }

  function Sum(s: seq<real>): real {
    if s == [] then 0.0 else s[0] + Sum(s[1..])
  }

  /** Replacing one element changes the sum by exactly the difference. */
  lemma {:induction false} SumUpdate(s: seq<real>, k: nat, v: real)
    requires k < |s|
    ensures Sum(s[k := v]) == Sum(s) - s[k] + v
  {
    if k == 0 {
      assert s[k := v][1..] == s[1..];
    } else {
      assert s[k := v][1..] == s[1..][k - 1 := v];
      SumUpdate(s[1..], k - 1, v);
    }
  }

  lemma MulMono(a: real, b: real, c: real)
    requires a <= b && 0.0 <= c
    ensures a * c <= b * c
  {
    assert b * c - a * c == (b - a) * c;
  }

  lemma MulMonoStrict(a: real, b: real, c: real)
    requires a < b && 0.0 < c
    ensures a * c < b * c
  {
    assert b * c - a * c == (b - a) * c;
  }

  lemma DivBelowOne(x: real, d: real)
    requires 0.0 < d
    ensures x / d < 1.0 <==> x < d
  {
    var q := x / d;
    assert q * d == x;
    if q < 1.0 {
      MulMonoStrict(q, 1.0, d);
    } else {
      MulMono(1.0, q, d);
    }
  }

  lemma DivMono(a: real, b: real, d: real)
    requires a <= b && 0.0 < d
    ensures a / d <= b / d
  {
    var qa, qb := a / d, b / d;
    assert qa * d == a && qb * d == b;
    if qb < qa {
      MulMonoStrict(qb, qa, d);
    }
  }

  lemma DivPositive(x: real, d: real)
    requires 0.0 < x && 0.0 < d
    ensures 0.0 < x / d
  {
    var q := x / d;
    assert q * d == x;
    if q <= 0.0 {
      MulMono(q, 0.0, d);
    }
  }

  /** The host's Euclidean length `Math.sqrt(dx * dx + dy * dy)`, as far as the
      engine relies on it: never negative, and zero exactly for a zero offset. */
  ghost predicate IsHypot(hypot: (real, real) -> real) {
    forall dx, dy :: 0.0 <= hypot(dx, dy) && (hypot(dx, dy) == 0.0 <==> dx == 0.0 && dy == 0.0)
  }

  /** The shared linear fall-off `(radius - dist) / radius` of the pointer,
      click and pairwise forces: full strength at the centre, nothing at the
      rim. */
  function Falloff(dist: real, radius: real): (f: real)
    requires 0.0 <= dist <= radius && 0.0 < radius
    ensures 0.0 <= f <= 1.0
    ensures f == 0.0 <==> dist == radius
    ensures f == 1.0 <==> dist == 0.0
  {
    (radius - dist) / radius
  }

  /** The component `(delta / dist) * f * strength` of a radial impulse has the
      sign of `delta` when the strength is non-negative. */
  lemma ImpulseSign(delta: real, dist: real, f: real, strength: real)
    requires 0.0 < dist && 0.0 < f && 0.0 <= strength
    ensures 0.0 <= delta ==> 0.0 <= (delta / dist) * f * strength
    ensures delta <= 0.0 ==> (delta / dist) * f * strength <= 0.0
  {
    var q := delta / dist;
    assert q * dist == delta;
    if 0.0 <= delta {
      assert 0.0 <= q;
      assert 0.0 <= q * f;
    } else {
      assert q <= 0.0;
      assert q * f <= 0.0;
    }
  }
}
