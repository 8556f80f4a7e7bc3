/** Order facts about real products and quotients, one step each, so that proofs elsewhere need not reason about
    nonlinear terms. */
module RealMath {

  lemma {:induction false} MulLe(a: real, b: real, c: real)
    requires a <= b && c >= 0.0
    ensures a * c <= b * c
  {
  }

  lemma {:induction false} MulLt(a: real, b: real, c: real)
    requires a < b && c > 0.0
    ensures a * c < b * c
  {
  }

  lemma {:induction false} DivMul(a: real, c: real)
    requires c != 0.0
    ensures a / c * c == a
  {
  }

  lemma {:induction false} DivBound(a: real, b: real, c: real)
    requires c > 0.0
    ensures a / c <= b <==> a <= b * c
    ensures a / c >= b <==> a >= b * c
    ensures a / c == b <==> a == b * c
  {
    var q := a / c;
    DivMul(a, c);
    if q < b {
      MulLt(q, b, c);
    } else if q > b {
      MulLt(b, q, c);
    }
  }

  lemma {:induction false} Square(a: real)
    ensures a * a >= 0.0
  {
  }

  /** A product by name, so that proofs about it need not look inside. */
  function Times(a: real, b: real): real { a * b }

  function Sq(x: real): real { x * x }

  lemma {:induction false} TimesAdd(a: real, b: real, c: real)
    ensures Times(a + b, c) == Times(a, c) + Times(b, c)
    ensures Times(0.0, c) == 0.0
  {
  }

  lemma {:induction false} TimesSplit(c: real, a: real, b: real)
    ensures Times(c, a + b) == Times(c, a) + Times(c, b)
    ensures Times(c, 0.0) == 0.0
  {
  }

  lemma {:induction false} TimesNonneg(a: real, b: real)
    requires a >= 0.0 && b >= 0.0
    ensures Times(a, b) >= 0.0
  {
    MulLe(0.0, a, b);
  }

  lemma {:induction false} TimesSwap(a: real, b: real)
    ensures Times(a, b) == Times(b, a)
  {
  }

  lemma {:induction false} TimesLt(a: real, b: real, c: real)
    requires a < b && c > 0.0
    ensures Times(a, c) < Times(b, c)
  {
  }
}
