/** Facts about integer products and Euclidean division, one step each, for everything that cuts rows into blocks,
    windows and chunks. */
module IntMath {

  lemma {:induction false} MulMono(x: int, y: int, b: nat)
    requires x <= y
    ensures x * b <= y * b
  {
  }

  lemma {:induction false} DivStep(n: nat, b: nat)
    requires 1 <= b <= n
    ensures n / b == (n - b) / b + 1
    ensures n / b * b == (n - b) / b * b + b
  {
    var q := (n - b) / b;
    DivUnique(n, b, q + 1, (n - b) % b);
  }

  lemma {:induction false} DivUnique(n: nat, b: nat, q: nat, r: nat)
    requires b >= 1 && r < b && n == q * b + r
    ensures n / b == q && n % b == r
  {
    var d := n / b;
    if d < q {
      MulMono(d + 1, q, b);
    } else if d > q {
      MulMono(q + 1, d, b);
    }
  }

  lemma {:induction false} ModIs(x: int, n: nat, q: int, r: nat)
    requires r < n && x == q * n + r
    ensures x % n == r
  {
    var d := x / n;
    if d < q {
      MulMono(d + 1, q, n);
    } else if d > q {
      MulMono(q + 1, d, n);
    }
  }

  lemma {:induction false} DivSmall(n: nat, b: nat)
    requires b >= 1
    ensures n < b ==> n / b == 0
  {
    if n < b {
      DivUnique(n, b, 0, n);
    }
  }

  lemma {:induction false} DivAtLeast(a: nat, n: nat, q: int)
    requires n >= 1
    ensures a / n >= q <==> a >= q * n
  {
    var d := a / n;
    assert (d + 1) * n == d * n + n;
    if d >= q {
      MulMono(q, d, n);
    } else {
      MulMono(d + 1, q, n);
    }
  }

  lemma {:induction false} DivStepUp(a: nat, b: nat, k: nat, n: nat)
    requires n >= 1 && a + k * n <= b
    ensures a / n + k <= b / n
  {
    assert (a / n + k) * n == a / n * n + k * n;
    DivAtLeast(b, n, a / n + k);
  }
}
