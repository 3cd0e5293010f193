/** The unit tests of src/cell/function/square.rs, power.rs and exp.rs: each
    builds the 2x2 input [[1, 2], [3, 4]], calls a fresh instance on it, and
    then runs `backward` with an all-ones upstream gradient. */
module Scenarios {
  import opened Wrappers
  import opened Tensors
  import opened Variables
  import opened Functions
  import PowerRule

  /** The 2x2 array [[a, b], [c, d]], stored row-major. */
  function Grid(a: real, b: real, c: real, d: real): (t: Tensor)
    ensures t.shape == [2, 2] && |t.data| == 4
  {
    RawTensor([2, 2], [a, b, c, d])
  }

  /** Two arrays of one shape are equal when they agree element by element. */
  lemma SameElements(s: Tensor, t: Tensor)
    requires s.shape == t.shape
    requires forall i :: 0 <= i < |s.data| ==> s.data[i] == t.data[i]
    ensures s == t
  {
  }

  /** Square: [[1, 2], [3, 4]] gives [[1, 4], [9, 16]]; backward on all-ones
      gives [[2, 4], [6, 8]]. */
  lemma SquareScenario(exp: real -> real)
    ensures var r := Call(NewSquare(), New(Grid(1.0, 2.0, 3.0, 4.0)), exp);
      && r.1.data == Grid(1.0, 4.0, 9.0, 16.0)
      && Backward(r.0, Ones([2, 2]), exp) == Success(Grid(2.0, 4.0, 6.0, 8.0))
  {
    var r := Call(NewSquare(), New(Grid(1.0, 2.0, 3.0, 4.0)), exp);
    SameElements(r.1.data, Grid(1.0, 4.0, 9.0, 16.0));
    var g := Backward(r.0, Ones([2, 2]), exp);
    SameElements(g.value, Grid(2.0, 4.0, 6.0, 8.0));
  }

  /** Power(5): [[1, 2], [3, 4]] gives [[1, 32], [243, 1024]]; backward on
      all-ones gives [[5, 80], [405, 1280]]. */
  lemma PowerScenario(exp: real -> real)
    ensures var r := Call(NewPower(5), New(Grid(1.0, 2.0, 3.0, 4.0)), exp);
      && r.1.data == Grid(1.0, 32.0, 243.0, 1024.0)
      && Backward(r.0, Ones([2, 2]), exp) == Success(Grid(5.0, 80.0, 405.0, 1280.0))
  {
    var r := Call(NewPower(5), New(Grid(1.0, 2.0, 3.0, 4.0)), exp);
    assert PowerRule.Pow(2.0, 4) == 16.0 && PowerRule.Pow(3.0, 4) == 81.0 && PowerRule.Pow(4.0, 4) == 256.0;
    assert PowerRule.Pow(1.0, 4) == 1.0;
    assert PowerRule.Pow(2.0, 5) == 32.0 && PowerRule.Pow(3.0, 5) == 243.0 && PowerRule.Pow(4.0, 5) == 1024.0;
    assert PowerRule.Pow(1.0, 5) == 1.0;
    SameElements(r.1.data, Grid(1.0, 32.0, 243.0, 1024.0));
    var g := Backward(r.0, Ones([2, 2]), exp);
    SameElements(g.value, Grid(5.0, 80.0, 405.0, 1280.0));
  }

  /** Exp: [[1, 2], [3, 4]] gives [[e^1, e^2], [e^3, e^4]], and backward on
      all-ones gives the same array again. */
  lemma ExpScenario(exp: real -> real)
    ensures var r := Call(NewExp(), New(Grid(1.0, 2.0, 3.0, 4.0)), exp);
      && r.1.data == Grid(exp(1.0), exp(2.0), exp(3.0), exp(4.0))
      && Backward(r.0, Ones([2, 2]), exp) == Success(Grid(exp(1.0), exp(2.0), exp(3.0), exp(4.0)))
  {
    var input := New(Grid(1.0, 2.0, 3.0, 4.0));
    var r := Call(NewExp(), input, exp);
    SameElements(r.1.data, Grid(exp(1.0), exp(2.0), exp(3.0), exp(4.0)));
    ExpBackwardOfOnesIsOutput(NewExp(), input, exp);
  }
}
