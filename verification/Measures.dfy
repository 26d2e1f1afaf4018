/** Durations and plane geometry, over exact reals. */
module Measures {
  /** The length of n steps. */
  function Span(step: real, n: nat): real {
    if n == 0 then 0.0 else Span(step, n - 1) + step
  }

  lemma {:induction false} SpanIs(step: real, n: nat)
    ensures Span(step, n) == step * n as real
  {
    if n != 0 { SpanIs(step, n - 1); }
  }

  lemma {:induction false} SpanSum(step: real, m: nat, n: nat)
    ensures Span(step, m + n) == Span(step, m) + Span(step, n)
    decreases n
  {
    if n != 0 { SpanSum(step, m, n - 1); }
  }

  lemma SpanGrows(step: real, m: nat, n: nat)
    requires step > 0.0 && m < n
    ensures Span(step, m) + step <= Span(step, n)
    decreases n
  {
    if m + 1 < n { SpanGrows(step, m, n - 1); }
  }

  datatype Vec2 = Vec2(x: real, y: real)

  function Dot(a: Vec2, b: Vec2): real { a.x * b.x + a.y * b.y }
  function Plus(a: Vec2, b: Vec2): Vec2 { Vec2(a.x + b.x, a.y + b.y) }
  function Minus(a: Vec2, b: Vec2): Vec2 { Vec2(a.x - b.x, a.y - b.y) }
  function Scale(a: Vec2, k: real): Vec2 { Vec2(a.x * k, a.y * k) }
  function Negate(a: Vec2): Vec2 { Vec2(-a.x, -a.y) }

  const ZERO := Vec2(0.0, 0.0)

  /** b is no further than d from a. */
  predicate Within(a: Vec2, b: Vec2, d: real) { d >= 0.0 && Dot(Minus(b, a), Minus(b, a)) <= d * d }

  lemma LongerSquare(a: real, b: real)
    requires a > b >= 0.0
    ensures a * a > b * b
  {
    assert a * (a - b) > 0.0;
    assert b * (a - b) >= 0.0;
  }

  lemma SquareOrder(a: real, b: real)
    requires b >= 0.0 && a * a <= b * b
    ensures a <= b
  {
    if a > b { LongerSquare(a, b); }
  }

  lemma CauchySchwarz(u: Vec2, v: Vec2)
    ensures Dot(u, v) * Dot(u, v) <= Dot(u, u) * Dot(v, v)
  {
    var cross := u.x * v.y - u.y * v.x;
    assert Dot(u, u) * Dot(v, v) == Dot(u, v) * Dot(u, v) + cross * cross;
  }

  lemma ProductOrder(a: real, b: real, c: real, d: real)
    requires 0.0 <= a <= c && 0.0 <= b <= d
    ensures a * b <= c * d
  {
  }

  lemma SumSquare(u: Vec2, v: Vec2)
    ensures Dot(Plus(u, v), Plus(u, v)) == Dot(u, u) + 2.0 * Dot(u, v) + Dot(v, v)
  {
  }

  lemma Triangle(a: Vec2, b: Vec2, c: Vec2, d: real, e: real)
    requires Within(a, b, d) && Within(b, c, e)
    ensures Within(a, c, d + e)
  {
    var u, v := Minus(b, a), Minus(c, b);
    CauchySchwarz(u, v);
    ProductOrder(Dot(u, u), Dot(v, v), d * d, e * e);
    assert (d * d) * (e * e) == (d * e) * (d * e);
    SquareOrder(Dot(u, v), d * e);
    SumSquare(u, v);
    assert Plus(u, v) == Minus(c, a);
    assert (d + e) * (d + e) == d * d + 2.0 * (d * e) + e * e;
  }

  lemma ScaledLength(dir: Vec2, k: real)
    requires Dot(dir, dir) == 1.0
    ensures Dot(Scale(dir, k), Scale(dir, k)) == k * k
  {
    assert Dot(Scale(dir, k), Scale(dir, k)) == Dot(dir, dir) * (k * k);
  }

  lemma SteppedWithin(from: Vec2, dir: Vec2, k: real)
    requires Dot(dir, dir) == 1.0 && k >= 0.0
    ensures Within(from, Plus(from, Scale(dir, k)), k)
  {
    ScaledLength(dir, k);
    assert Minus(Plus(from, Scale(dir, k)), from) == Scale(dir, k);
  }

  lemma Staying(a: Vec2, d: real)
    requires d >= 0.0
    ensures Within(a, a, d)
  {
    assert Minus(a, a) == ZERO && d * d >= 0.0;
  }

  lemma WithinMore(a: Vec2, b: Vec2, d: real, e: real)
    requires Within(a, b, d) && d <= e
    ensures Within(a, b, e)
  {
    ProductOrder(d, d, e, e);
  }

  lemma UnitLength(dir: Vec2, r: real)
    requires r > 0.0 && r * r == Dot(dir, dir)
    ensures Dot(Scale(dir, 1.0 / r), Scale(dir, 1.0 / r)) == 1.0
  {
    var k := 1.0 / r;
    assert k * r == 1.0;
    assert Dot(Scale(dir, k), Scale(dir, k)) == (dir.x * dir.x + dir.y * dir.y) * (k * k);
    assert (r * r) * (k * k) == (k * r) * (k * r);
  }
}
