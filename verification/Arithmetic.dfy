// Exact integer division facts. Every rate conversion in the audio path is a
// cross-multiplication, so the rest of the project reasons through these.
module Arithmetic {

  function Min(a: int, b: int): int { if a <= b then a else b }

  function Max(a: int, b: int): int { if a >= b then a else b }

  // ceil(a / b), the value of Math.ceil on an exact quotient.
  function CeilDiv(a: int, b: int): int
    requires b > 0
  {
    -((-a) / b)
  }

  lemma MulMono(a: int, b: int, c: int)
    requires a <= b && c >= 0
    ensures a * c <= b * c
  {}

  lemma MulMonoStrict(a: int, b: int, c: int)
    requires a < b && c > 0
    ensures a * c < b * c
  {}

  // Division is the unique q with q*b <= a < (q+1)*b.
  lemma DivBounds(a: int, b: int)
    requires b > 0
    ensures a / b * b <= a < (a / b + 1) * b
  {
    assert a == a / b * b + a % b;
  }

  // k <= floor(a / b) exactly when k * b <= a.
  lemma LeFloor(k: int, a: int, b: int)
    requires b > 0
    ensures k <= a / b <==> k * b <= a
  {
    DivBounds(a, b);
    if k <= a / b { MulMono(k, a / b, b); } else { MulMono(a / b + 1, k, b); }
  }

  // k < ceil(a / b) exactly when k * b < a.
  lemma LtCeil(k: int, a: int, b: int)
    requires b > 0
    ensures k < CeilDiv(a, b) <==> k * b < a
  {
    LeFloor(-k, -a, b);
    assert (-k) * b == -(k * b);
  }

  lemma DivMono(a: int, c: int, b: int)
    requires b > 0 && a <= c
    ensures a / b <= c / b
  {
    DivBounds(a, b);
    LeFloor(a / b, c, b);
  }

  lemma ScaleAtLeast(f: real, b: real)
    requires f >= 1.0 && b > 0.0
    ensures f * b >= b
  {
    var g := f - 1.0;
    assert g * b >= 0.0;
    assert f * b == g * b + b;
  }

  lemma RealQuotient(q: real, b: real, r: real)
    requires b > 0.0 && 0.0 <= r < b
    ensures (q * b + r) / b == q + r / b && 0.0 <= r / b < 1.0
  {
    var f := r / b;
    assert f * b == r;
    assert (q + f) * b == q * b + r;
    if f >= 1.0 { ScaleAtLeast(f, b); }
  }

  lemma FloorUnique(x: real, q: int)
    requires 0.0 <= x - q as real < 1.0
    ensures x.Floor == q
  {}

  lemma {:induction false} CastProduct(q: int, b: nat)
    ensures (q * b) as real == q as real * b as real
    decreases b
  {
    if b > 0 {
      CastProduct(q, b - 1);
      assert q * b == q * (b - 1) + q;
      assert b as real == (b - 1) as real + 1.0;
      assert q as real * ((b - 1) as real + 1.0) == q as real * (b - 1) as real + q as real;
    }
  }

  // The integer quotient is the floor of the real quotient.
  lemma RealFloor(a: int, b: int)
    requires b > 0
    ensures (a as real / b as real).Floor == a / b
    ensures a as real / b as real - (a / b) as real == (a - a / b * b) as real / b as real
  {
    DivBounds(a, b);
    var q, r := a / b, a - a / b * b;
    assert 0 <= r < b;
    CastProduct(q, b);
    RealQuotient(q as real, b as real, r as real);
    assert a == q * b + r;
    FloorUnique(a as real / b as real, q);
  }
}
