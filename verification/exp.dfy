/** The Exp operation (src/cell/function/exp.rs). The exponential itself is the
    element type's `exp`, supplied here as the parameter `exp`; nothing about its
    values is assumed, so only the structure of the rule is stated. */
module ExpRule {
  import opened Tensors

  /** `forward`: `exp` applied to every element, shape kept. */
  function Forward(x: Tensor, exp: real -> real): (y: Tensor)
    ensures y.shape == x.shape
    ensures forall i :: 0 <= i < |y.data| ==> y.data[i] == exp(x.data[i])
  {
    Map(x, exp)
  }

  /** `backward`: `exp(x) * gy`, recomputing `exp` of the remembered input `x`
      rather than reusing a cached forward result. */
  function Backward(x: Tensor, gy: Tensor, exp: real -> real): (gx: Tensor)
    requires gy.shape == x.shape
    ensures gx.shape == x.shape
    ensures forall i :: 0 <= i < |gx.data| ==> gx.data[i] == exp(x.data[i]) * gy.data[i]
  {
    Mul(Map(x, exp), gy)
  }

  /** The exponential is its own derivative, so backward with an all-ones
      upstream gradient reproduces forward exactly. */
  lemma BackwardOfOnesIsForward(x: Tensor, exp: real -> real)
    ensures Backward(x, Ones(x.shape), exp) == Forward(x, exp)
  {
    var g, y := Backward(x, Ones(x.shape), exp), Forward(x, exp);
    assert g.data == y.data by {
      forall i | 0 <= i < |g.data|
        ensures g.data[i] == y.data[i]
      {
        assert Ones(x.shape).data[i] == 1.0;
      }
    }
  }
}
