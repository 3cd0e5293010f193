/** The Power operation (src/cell/function/power.rs) with a fixed natural
    exponent `n`: forward is `x^n`, backward multiplies the upstream gradient by
    `x^(n-1)` and by `n`. */
module PowerRule {
  import opened Tensors

  /** `x` raised to the natural power `n` (`powi`). */
  function Pow(x: real, n: nat): real
  {
    if n == 0 then 1.0 else x * Pow(x, n - 1)
  }

  /** The first two powers: `x^1 == x` and `x^2 == x * x`. */
  lemma LowPowers(x: real)
    ensures Pow(x, 1) == x
    ensures Pow(x, 2) == x * x
  {
    assert Pow(x, 1) == x * Pow(x, 0);
    assert Pow(x, 2) == x * Pow(x, 1);
  }

  /** What `powf(n - 1)` yields for one element: `x^(n-1)` when `n >= 1`, and
      `x^-1` when `n == 0`, which is undefined at 0 (see the README). */
  function PowPred(x: real, n: nat): real
  {
    if n >= 1 then Pow(x, n - 1) else if x == 0.0 then 0.0 else 1.0 / x
  }

  /** `forward`: every element raised to `n`, shape kept. */
  function Forward(x: Tensor, n: nat): (y: Tensor)
    ensures y.shape == x.shape
    ensures forall i :: 0 <= i < |y.data| ==> y.data[i] == Pow(x.data[i], n)
  {
    Map(x, e => Pow(e, n))
  }

  /** `backward`: `gy * x^(n-1) * n`, where `x` is the remembered input. For
      `n == 0` the factor `n` makes every element 0 wherever `x^-1` exists. */
  function Backward(x: Tensor, n: nat, gy: Tensor): (gx: Tensor)
    requires gy.shape == x.shape
    ensures gx.shape == x.shape
    ensures n >= 1 ==> forall i :: 0 <= i < |gx.data| ==>
      gx.data[i] == gy.data[i] * Pow(x.data[i], n - 1) * (n as real)
    ensures n == 0 ==> forall i :: 0 <= i < |gx.data| && x.data[i] != 0.0 ==> gx.data[i] == 0.0
  {
    Scale(Mul(gy, Map(x, e => PowPred(e, n))), n as real)
  }

  /** The derivative of `x^n` with respect to `x`, built by the product rule
      from `x^n == x * x^(n-1)`; DerivClosedForm shows it is `n * x^(n-1)`. */
  function Deriv(x: real, n: nat): real
  {
    if n == 0 then 0.0 else Pow(x, n - 1) + x * Deriv(x, n - 1)
  }

  /** The power rule: for `n >= 1` the derivative of `x^n` is `n * x^(n-1)`. */
  lemma {:induction false} DerivClosedForm(x: real, n: nat)
    requires n >= 1
    ensures Deriv(x, n) == (n as real) * Pow(x, n - 1)
  {
    if n > 1 {
      DerivClosedForm(x, n - 1);
      assert Pow(x, n - 1) == x * Pow(x, n - 2);
    }
  }

  /** The second-order remainder of `(x + d)^n` around `x`. */
  function Remainder(x: real, d: real, n: nat): real
  {
    if n == 0 then 0.0 else Deriv(x, n - 1) + (x + d) * Remainder(x, d, n - 1)
  }

  /** Taylor's formula for a power at one point, exact over the reals. */
  predicate Expands(x: real, d: real, n: nat)
  {
    Pow(x + d, n) == Pow(x, n) + d * Deriv(x, n) + d * d * Remainder(x, d, n)
  }

  /** `(x + d)^n == x^n + d * Deriv(x, n) + d^2 * Remainder(x, d, n)` for
      every `n`, so Deriv is the first-order coefficient of `x^n`. */
  lemma {:induction false} PowExpansion(x: real, d: real, n: nat)
    ensures Expands(x, d, n)
  {
    if n > 0 {
      var m: nat := n - 1;
      PowExpansion(x, d, m);
      ExpansionStep(x, d, m);
    }
  }

  /** Multiplying the expansion for `m` by `x + d` gives the one for `m + 1`. */
  lemma ExpansionStep(x: real, d: real, m: nat)
    requires Expands(x, d, m)
    ensures Expands(x, d, m + 1)
  {
    var p, a, b, r := Pow(x + d, m), Pow(x, m), Deriv(x, m), Remainder(x, d, m);
    assert Pow(x + d, m + 1) == (x + d) * p;
    assert Pow(x, m + 1) == x * a;
    assert Deriv(x, m + 1) == a + x * b;
    assert Remainder(x, d, m + 1) == b + (x + d) * r;
    ExpandProduct(x, d, p, a, b, r);
  }

  /** The polynomial identity behind one ExpansionStep. */
  lemma ExpandProduct(x: real, d: real, p: real, a: real, b: real, r: real)
    requires p == a + d * b + d * d * r
    ensures (x + d) * p == x * a + d * (a + x * b) + d * d * (b + (x + d) * r)
  {
    calc {
      (x + d) * p;
      (x + d) * (a + d * b + d * d * r);
      x * a + x * (d * b) + x * (d * d * r) + d * a + d * (d * b) + d * (d * d * r);
      x * a + d * (a + x * b) + d * d * (b + (x + d) * r);
    }
  }

  /** Backward is the derivative of forward: each element is the upstream
      gradient times the derivative of `x^n` at the remembered input (for
      `n == 0`, where `x^-1` exists). */
  lemma BackwardIsDerivative(x: Tensor, n: nat, gy: Tensor)
    requires gy.shape == x.shape
    ensures forall i :: 0 <= i < |x.data| && (n >= 1 || x.data[i] != 0.0) ==>
      Backward(x, n, gy).data[i] == gy.data[i] * Deriv(x.data[i], n)
  {
    forall i | 0 <= i < |x.data| && (n >= 1 || x.data[i] != 0.0)
      ensures Backward(x, n, gy).data[i] == gy.data[i] * Deriv(x.data[i], n)
    {
      if n >= 1 {
        DerivClosedForm(x.data[i], n);
      }
    }
  }
}
