/** Finite sums of reals over sequences and over ranges of an index function, with the order facts about them that
    the other modules share. */
module Sums {

  import opened RealMath

  function Sum(xs: seq<real>): real {
    if xs == [] then 0.0 else xs[0] + Sum(xs[1..])
  }

  lemma {:induction false} SumConcat(xs: seq<real>, ys: seq<real>)
    ensures Sum(xs + ys) == Sum(xs) + Sum(ys)
  {
    if xs == [] {
      assert xs + ys == ys;
    } else {
      assert (xs + ys)[1..] == xs[1..] + ys;
      SumConcat(xs[1..], ys);
    }
  }

  lemma {:induction false} SumSnoc(xs: seq<real>, x: real)
    ensures Sum(xs + [x]) == Sum(xs) + x
  {
    SumConcat(xs, [x]);
  }

  function Dot(x: seq<real>, w: seq<real>): real
    requires |x| == |w|
  {
    if x == [] then 0.0 else Times(x[0], w[0]) + Dot(x[1..], w[1..])
  }

  /** f(lo) + ... + f(hi - 1). */
  function Sigma(lo: int, hi: int, f: int -> real): real
    decreases hi - lo
  {
    if hi <= lo then 0.0 else Sigma(lo, hi - 1, f) + f(hi - 1)
  }

  lemma {:induction false} SigmaEqual(lo: int, hi: int, f: int -> real, g: int -> real)
    requires forall i :: lo <= i < hi ==> f(i) == g(i)
    ensures Sigma(lo, hi, f) == Sigma(lo, hi, g)
    decreases hi - lo
  {
    if lo < hi {
      SigmaEqual(lo, hi - 1, f, g);
    }
  }

  lemma {:induction false} SigmaSplit(lo: int, mid: int, hi: int, f: int -> real)
    requires lo <= mid <= hi
    ensures Sigma(lo, hi, f) == Sigma(lo, mid, f) + Sigma(mid, hi, f)
    decreases hi - mid
  {
    if mid < hi {
      SigmaSplit(lo, mid, hi - 1, f);
    }
  }

  lemma {:induction false} SigmaShift(lo: int, hi: int, k: int, f: int -> real, g: int -> real)
    requires forall i :: lo <= i < hi ==> f(i) == g(i + k)
    ensures Sigma(lo, hi, f) == Sigma(lo + k, hi + k, g)
    decreases hi - lo
  {
    if lo < hi {
      SigmaShift(lo, hi - 1, k, f, g);
    }
  }

  /** The dot product as a sum over the indices. */
  lemma {:induction false} DotIsSigma(x: seq<real>, w: seq<real>, lo: int, f: int -> real)
    requires |x| == |w| && forall i :: 0 <= i < |x| ==> f(lo + i) == Times(x[i], w[i])
    ensures Dot(x, w) == Sigma(lo, lo + |x|, f)
    decreases |x|
  {
    if x != [] {
      forall i | 0 <= i < |x| - 1
        ensures f(lo + 1 + i) == Times(x[1..][i], w[1..][i])
      {
        assert f(lo + (i + 1)) == Times(x[i + 1], w[i + 1]);
      }
      DotIsSigma(x[1..], w[1..], lo + 1, f);
      SigmaSplit(lo, lo + 1, lo + |x|, f);
      assert f(lo + 0) == Times(x[0], w[0]);
      assert Sigma(lo, lo + 1, f) == Sigma(lo, lo, f) + f(lo);
    }
  }

  lemma {:induction false} SigmaLinear(lo: int, hi: int, a: real, f: int -> real, b: real, g: int -> real, h: int -> real)
    requires forall i :: lo <= i < hi ==> h(i) == a * f(i) + b * g(i)
    ensures Sigma(lo, hi, h) == a * Sigma(lo, hi, f) + b * Sigma(lo, hi, g)
    decreases hi - lo
  {
    if lo < hi {
      SigmaLinear(lo, hi - 1, a, f, b, g, h);
    }
  }

  lemma {:induction false} SigmaZero(lo: int, hi: int, f: int -> real)
    requires forall i :: lo <= i < hi ==> f(i) == 0.0
    ensures Sigma(lo, hi, f) == 0.0
    decreases hi - lo
  {
    if lo < hi {
      SigmaZero(lo, hi - 1, f);
    }
  }

  lemma {:induction false} SigmaNonneg(lo: int, hi: int, f: int -> real)
    requires forall i :: lo <= i < hi ==> f(i) >= 0.0
    ensures Sigma(lo, hi, f) >= 0.0
    decreases hi - lo
  {
    if lo < hi {
      SigmaNonneg(lo, hi - 1, f);
    }
  }

  function Min(a: real, b: real): real { if a <= b then a else b }

  function Max(a: real, b: real): real { if a >= b then a else b }

  function Abs(a: real): real { if a >= 0.0 then a else -a }

  function Mean(xs: seq<real>): real
    requires xs != []
  {
    Sum(xs) / |xs| as real
  }
}
