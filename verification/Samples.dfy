/** Measured values as they arrive. */
module Samples {

  /** NaN and the infinities are all `NonFinite`. */
  datatype Score = Finite(v: real) | NonFinite

  function FiniteOf(scores: seq<Score>): seq<real> {
    if scores == [] then []
    else (if scores[0].Finite? then [scores[0].v] else []) + FiniteOf(scores[1..])
  }

  lemma {:induction false} FiniteOfConcat(a: seq<Score>, b: seq<Score>)
    ensures FiniteOf(a + b) == FiniteOf(a) + FiniteOf(b)
  {
    if a == [] {
      assert a + b == b;
    } else {
      assert (a + b)[1..] == a[1..] + b;
      FiniteOfConcat(a[1..], b);
      var h := if a[0].Finite? then [a[0].v] else [];
      assert h + (FiniteOf(a[1..]) + FiniteOf(b)) == (h + FiniteOf(a[1..])) + FiniteOf(b);
    }
  }
}
