/** The Square operation (src/cell/function/square.rs): forward is `x * x`,
    backward multiplies the upstream gradient by the local derivative `2x`. */
module SquareRule {
  import opened Tensors

  /** `forward`: every element squared, shape kept. */
  function Forward(x: Tensor): (y: Tensor)
    ensures y.shape == x.shape
    ensures forall i :: 0 <= i < |y.data| ==> y.data[i] == x.data[i] * x.data[i]
  {
    Mul(x, x)
  }

  /** `backward`: `gy * x * 2`, where `x` is the remembered input. */
  function Backward(x: Tensor, gy: Tensor): (gx: Tensor)
    requires gy.shape == x.shape
    ensures gx.shape == x.shape
    ensures forall i :: 0 <= i < |gx.data| ==> gx.data[i] == gy.data[i] * x.data[i] * 2.0
  {
    Scale(Mul(gy, x), 2.0)
  }
}
