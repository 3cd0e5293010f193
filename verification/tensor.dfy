/** Dynamically-shaped n-dimensional arrays of exact reals (the role ndarray's
    `ArrayD` plays in the source), stored row-major: `shape` lists the extent of
    each axis and `data` holds exactly Product(shape) elements. */
module Tensors {

  /** The number of elements an array of the given shape holds. */
  function Product(shape: seq<nat>): nat
  {
    if |shape| == 0 then 1 else shape[0] * Product(shape[1..])
  }

  datatype RawTensor = RawTensor(shape: seq<nat>, data: seq<real>)

  /** A well-formed array: its element count agrees with its shape. */
  type Tensor = t: RawTensor | |t.data| == Product(t.shape) witness RawTensor([], [0.0])

  /** Applies `f` to every element, keeping the shape (ndarray's `mapv`). */
  function Map(x: Tensor, f: real -> real): (y: Tensor)
    ensures y.shape == x.shape
    ensures forall i :: 0 <= i < |y.data| ==> y.data[i] == f(x.data[i])
  {
    RawTensor(x.shape, seq(|x.data|, i requires 0 <= i < |x.data| => f(x.data[i])))
  }

  /** Elementwise product of two arrays of one shape (`a * b`). */
  function Mul(a: Tensor, b: Tensor): (y: Tensor)
    requires a.shape == b.shape
    ensures y.shape == a.shape
    ensures forall i :: 0 <= i < |y.data| ==> y.data[i] == a.data[i] * b.data[i]
  {
    RawTensor(a.shape, seq(|a.data|, i requires 0 <= i < |a.data| => a.data[i] * b.data[i]))
  }

  /** Every element multiplied by the scalar `c` (`a * c`). */
  function Scale(a: Tensor, c: real): (y: Tensor)
    ensures y.shape == a.shape
    ensures forall i :: 0 <= i < |y.data| ==> y.data[i] == a.data[i] * c
  {
    RawTensor(a.shape, seq(|a.data|, i requires 0 <= i < |a.data| => a.data[i] * c))
  }

  /** The array of the given shape whose every element is 1. */
  function Ones(shape: seq<nat>): (y: Tensor)
    ensures y.shape == shape
    ensures forall i :: 0 <= i < |y.data| ==> y.data[i] == 1.0
  {
    RawTensor(shape, seq(Product(shape), i => 1.0))
  }
}
