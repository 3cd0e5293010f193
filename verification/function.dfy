/** The `Function` abstraction (src/cell/function.rs) together with its three
    instances. A Function instance is a value of `Op`: which operation it is,
    the operation's fixed parameter, and the input it remembered at its last
    `call`. The trait's `&mut self` methods become pure functions that return
    the updated instance. */
module Functions {
  import opened Wrappers
  import opened Tensors
  import opened Variables
  import SquareRule
  import PowerRule
  import ExpRule

  /** One application of an elementary operation. `input` is the private copy
      of the Variable it was last called with; `None` until the first call. */
  datatype Op =
    | Exp(input: Option<Variable<Op>>)
    | Power(n: nat, input: Option<Variable<Op>>)
    | Square(input: Option<Variable<Op>>)

  /** How `backward` can fail. */
  datatype Error =
    | NoRememberedInput  // the source's `unwrap` on an instance never called
    | ShapeMismatch      // `gy` and the remembered input differ in shape

  /** The Ready state: an input has been remembered, so `backward` has the
      value its derivative rule needs. The other state is Empty. */
  predicate Ready(op: Op)
  {
    op.input.Some?
  }

  /** Same operation with the same parameter, whatever each remembers. */
  predicate SameKind(a: Op, b: Op)
  {
    match a
    case Exp(_) => b.Exp?
    case Power(n, _) => b.Power? && b.n == n
    case Square(_) => b.Square?
  }

  /** `Exp::new`: an Empty exponential. */
  function NewExp(): (op: Op)
    ensures op.Exp? && !Ready(op)
  {
    Exp(None)
  }

  /** `Power::new(n)`: an Empty power with exponent `n`. */
  function NewPower(n: nat): (op: Op)
    ensures op.Power? && op.n == n && !Ready(op)
  {
    Power(n, None)
  }

  /** `Square::new`: an Empty square. */
  function NewSquare(): (op: Op)
    ensures op.Square? && !Ready(op)
  {
    Square(None)
  }

  /** `forward`, dispatched on the operation: shape kept, every element
      transformed by the operation alone. */
  function Forward(op: Op, x: Tensor, exp: real -> real): (y: Tensor)
    ensures y.shape == x.shape
    ensures op.Exp? ==> forall i :: 0 <= i < |y.data| ==> y.data[i] == exp(x.data[i])
    ensures op.Power? ==> forall i :: 0 <= i < |y.data| ==> y.data[i] == PowerRule.Pow(x.data[i], op.n)
    ensures op.Square? ==> forall i :: 0 <= i < |y.data| ==> y.data[i] == x.data[i] * x.data[i]
  {
    match op
    case Exp(_) => ExpRule.Forward(x, exp)
    case Power(n, _) => PowerRule.Forward(x, n)
    case Square(_) => SquareRule.Forward(x)
  }

  /** The derivative rule of `op` at input `x`: the upstream gradient `gy`
      times the operation's derivative at `x`, element by element. */
  function BackwardAt(op: Op, x: Tensor, gy: Tensor, exp: real -> real): (gx: Tensor)
    requires gy.shape == x.shape
    ensures gx.shape == x.shape
    ensures op.Exp? ==> forall i :: 0 <= i < |gx.data| ==> gx.data[i] == exp(x.data[i]) * gy.data[i]
    ensures op.Power? && op.n >= 1 ==> forall i :: 0 <= i < |gx.data| ==>
      gx.data[i] == gy.data[i] * PowerRule.Pow(x.data[i], op.n - 1) * (op.n as real)
    ensures op.Power? && op.n == 0 ==> forall i :: 0 <= i < |gx.data| && x.data[i] != 0.0 ==> gx.data[i] == 0.0
    ensures op.Square? ==> forall i :: 0 <= i < |gx.data| ==> gx.data[i] == gy.data[i] * x.data[i] * 2.0
  {
    match op
    case Exp(_) => ExpRule.Backward(x, gy, exp)
    case Power(n, _) => PowerRule.Backward(x, n, gy)
    case Square(_) => SquareRule.Backward(x, gy)
  }

  /** `backward`: the derivative rule applied at the remembered input. Fails
      in the Empty state, and when `gy` does not have the remembered input's
      shape; it returns no new instance, so what is remembered stays as it
      was. */
  function Backward(op: Op, gy: Tensor, exp: real -> real): (r: Result<Tensor, Error>)
    ensures r == Failure(NoRememberedInput) <==> !Ready(op)
    ensures Ready(op) ==> (r == Failure(ShapeMismatch) <==> gy.shape != op.input.value.data.shape)
    ensures r.Success? ==>
      && Ready(op)
      && gy.shape == op.input.value.data.shape
      && r.value == BackwardAt(op, op.input.value.data, gy, exp)
  {
    match op.input
    case None => Failure(NoRememberedInput)
    case Some(v) =>
      if gy.shape != v.data.shape then Failure(ShapeMismatch)
      else Success(BackwardAt(op, v.data, gy, exp))
  }

  /** `remember_input`: stores a copy of `v`, replacing whatever was stored;
      the operation and its parameter are untouched. */
  function RememberInput(op: Op, v: Variable<Op>): (op': Op)
    ensures SameKind(op, op') && Ready(op')
    ensures op'.input == Some(v)
  {
    op.(input := Some(v))
  }

  /** `call`: runs `forward` on the input's array, wraps the result in a new
      Variable, and remembers the input. The input itself is passed by value
      and cannot change. */
  function Call(op: Op, v: Variable<Op>, exp: real -> real): (r: (Op, Variable<Op>))
    ensures SameKind(op, r.0) && Ready(r.0) && r.0.input == Some(v)
    ensures r.1.data == Forward(op, v.data, exp)
    ensures r.1.grad == None && r.1.IsLeaf()
  {
    var y := Forward(op, v.data, exp);
    (RememberInput(op, v), New(y))
  }

  /** `forward` depends on which operation this is and never on what the
      instance remembers. */
  lemma ForwardIgnoresMemory(op: Op, m: Option<Variable<Op>>, x: Tensor, exp: real -> real)
    ensures Forward(op.(input := m), x, exp) == Forward(op, x, exp)
  {
  }

  /** Calling an instance makes `backward` available for every upstream
      gradient of the input's shape. */
  lemma CallEnablesBackward(op: Op, v: Variable<Op>, gy: Tensor, exp: real -> real)
    requires gy.shape == v.data.shape
    ensures Backward(Call(op, v, exp).0, gy, exp).Success?
  {
  }

  /** Latest input wins: after calls with `v1` and then `v2`, the instance
      remembers `v2`, and `backward` computes exactly what it would after a
      single call with `v2`; `v1` is forgotten. */
  lemma LatestInputWins(op: Op, v1: Variable<Op>, v2: Variable<Op>, gy: Tensor, exp: real -> real)
    ensures var twice := Call(Call(op, v1, exp).0, v2, exp).0;
      && twice.input == Some(v2)
      && SameKind(op, twice)
      && Backward(twice, gy, exp) == Backward(Call(op, v2, exp).0, gy, exp)
  {
    var once, twice := Call(op, v2, exp).0, Call(Call(op, v1, exp).0, v2, exp).0;
    assert twice == once;
  }

  /** After `call(v)` on an exponential, `backward` with an all-ones upstream
      gradient equals the data of the Variable that `call` returned. */
  lemma ExpBackwardOfOnesIsOutput(op: Op, v: Variable<Op>, exp: real -> real)
    requires op.Exp?
    ensures var r := Call(op, v, exp);
      Backward(r.0, Ones(v.data.shape), exp) == Success(r.1.data)
  {
    ExpRule.BackwardOfOnesIsForward(v.data, exp);
  }

  /** Power(2) and Square are independent implementations of one function:
      given the same remembered state, they agree on `forward` and on
      `backward`, including its failures. */
  lemma PowerTwoIsSquare(m: Option<Variable<Op>>, x: Tensor, gy: Tensor, exp: real -> real)
    ensures Forward(Power(2, m), x, exp) == Forward(Square(m), x, exp)
    ensures Backward(Power(2, m), gy, exp) == Backward(Square(m), gy, exp)
  {
    PowerTwoForward(x);
    if m.Some? && gy.shape == m.value.data.shape {
      PowerTwoBackward(m.value.data, gy);
    }
  }

  /** The forward rules of Power(2) and Square give the same array. */
  lemma PowerTwoForward(x: Tensor)
    ensures PowerRule.Forward(x, 2) == SquareRule.Forward(x)
  {
    var p, s := PowerRule.Forward(x, 2), SquareRule.Forward(x);
    forall i | 0 <= i < |p.data|
      ensures p.data[i] == s.data[i]
    {
      PowerRule.LowPowers(x.data[i]);
    }
    assert p.data == s.data;
  }

  /** The backward rules of Power(2) and Square give the same array. */
  lemma PowerTwoBackward(x: Tensor, gy: Tensor)
    requires gy.shape == x.shape
    ensures PowerRule.Backward(x, 2, gy) == SquareRule.Backward(x, gy)
  {
    var p, s := PowerRule.Backward(x, 2, gy), SquareRule.Backward(x, gy);
    forall i | 0 <= i < |p.data|
      ensures p.data[i] == s.data[i]
    {
      PowerRule.LowPowers(x.data[i]);
    }
    assert p.data == s.data;
  }
}
