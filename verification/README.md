# femto-rs autodiff core, modelled in Dafny

femto-rs is a minimal reverse-mode automatic-differentiation core. A
`Variable` holds an n-dimensional array (`data`), an optional gradient
(`grad`) and an optional link to the `Function` instance that created it
(`creater`). A `Function` instance is one application of an elementary
operation (exponential, integer power, square). Its `call` runs `forward` on
a Variable's array, wraps the result in a new Variable and remembers a copy
of the input. Its `backward` multiplies an upstream gradient by the
operation's derivative at that remembered input.

This project models that core over exact `real` arithmetic:

- `tensor.dfy` (`Tensors`): a dynamically-shaped array is a shape plus a
  row-major `seq<real>` whose length is the product of the shape. It has the
  elementwise map, product and scalar product that the operations use, and the all-ones array.
- `variable.dfy` (`Variables`): the `Variable<F>` node, generic over the type
  of its creator as in the source, with `New` and `SetCreater`.
- `square.dfy`, `power.dfy`, `exp.dfy` (`SquareRule`, `PowerRule`, `ExpRule`):
  the forward and backward rule of each operation.
- `function.dfy` (`Functions`): the trait as one closed datatype,
  `Op = Exp | Power(n) | Square`. Each variant carries `input`, an
  `Option<Variable<Op>>`. `Ready(op)` is the state in which an input has been
  remembered; the other state is Empty. The `&mut self` methods become pure
  functions that return the updated instance, and `Backward` returns a
  `Result` instead of panicking.
- `scenarios.dfy` (`Scenarios`): the three unit tests of the source as lemmas.

The element type's `exp` is not given a definition: it is a parameter
`exp: real -> real` of every operation that needs it. So only structural facts
are proved about the exponential: shape, state, and "backward on all-ones
equals forward".

The proofs also show that the polynomial backward rules are the true
derivatives. `PowerRule.PowExpansion` proves the exact Taylor expansion
`(x + d)^n == x^n + d * Deriv(x, n) + d^2 * Remainder(x, d, n)`. Backward's
elements are `gy * Deriv(x, n)`, and Power(2) agrees with Square.

For `n == 0` the derivative of `x^0` is 0 everywhere. The code computes
`gy * x^-1 * 0`, which is 0 only for nonzero `x`
(src/cell/function/power.rs:30-32); at `x == 0` it is NaN.

The code does not type-check as written. The trait is `Function<T, F>`, but
the operations implement `Function<T>`, and no operation implements
`remember_output`. The model follows the evident intent: one Function
abstraction whose `call` remembers the input.

## Model

| member | source | states |
|---|---|---|
| Variables.New | src/cell/variable.rs:13-19 | a new Variable holds the given array, has no gradient and is a leaf (no creator) |
| Variables.SetCreater | src/cell/variable.rs:21-23 | afterwards the creator is `Some(f)` and the node is no longer a leaf; data and grad are unchanged |
| Variables.SetCreaterOverwrites | src/cell/variable.rs:21-23 | setting `f` and then `g` equals setting `g` alone: any earlier creator is overwritten |
| Variables.NewThenSetCreater | src/cell/variable.rs:13-23 | a fresh leaf given creator `f` keeps its data and empty gradient and has creator `f` |
| SquareRule.Forward | src/cell/function/square.rs:23-25 | same shape; element i is `x[i] * x[i]` |
| SquareRule.Backward | src/cell/function/square.rs:27-31 | for gy of x's shape, same shape; element i is `gy[i] * x[i] * 2` |
| PowerRule.Forward | src/cell/function/power.rs:24-26 | same shape; element i is `x[i]^n` |
| PowerRule.Backward | src/cell/function/power.rs:28-33 | for n >= 1 element i is `gy[i] * x[i]^(n-1) * n`; for n == 0 it is 0 wherever `x[i] != 0` |
| PowerRule.LowPowers | src/cell/function/power.rs:25 | `x^1 == x` and `x^2 == x * x` |
| PowerRule.DerivClosedForm | src/cell/function/power.rs:30-32 | the product-rule derivative of `x^n` equals `n * x^(n-1)`, the factor backward uses |
| PowerRule.PowExpansion | src/cell/function/power.rs:24-33 | `(x + d)^n == x^n + d * Deriv(x, n) + d^2 * Remainder`: Deriv is the first-order coefficient of forward |
| PowerRule.BackwardIsDerivative | src/cell/function/power.rs:28-33 | every backward element is `gy[i]` times the derivative of `x^n` at `x[i]` (for n == 0, where `x[i] != 0`) |
| ExpRule.Forward | src/cell/function/exp.rs:23-25 | same shape; element i is `exp(x[i])` |
| ExpRule.Backward | src/cell/function/exp.rs:27-31 | for gy of x's shape, element i is `exp(x[i]) * gy[i]`, recomputed from the input |
| ExpRule.BackwardOfOnesIsForward | src/cell/function/exp.rs:27-31 | backward with an all-ones gradient equals forward of the same input |
| Functions.NewExp | src/cell/function/exp.rs:14-16 | a new exponential is in the Empty state |
| Functions.NewPower | src/cell/function/power.rs:15-17 | a new power stores the exponent `n` and is in the Empty state |
| Functions.NewSquare | src/cell/function/square.rs:14-16 | a new square is in the Empty state |
| Functions.Forward | src/cell/function.rs:17 | keeps the shape; per operation, element i is `exp(x[i])`, `x[i]^n` or `x[i] * x[i]` |
| Functions.BackwardAt | src/cell/function.rs:18 | per operation, element i is `exp(x[i]) * gy[i]`, `gy[i] * x[i]^(n-1) * n` or `gy[i] * x[i] * 2` |
| Functions.Backward | src/cell/function.rs:18 | for all three operations (the `unwrap` at exp.rs line 28, power.rs line 29, square.rs line 28): fails with NoRememberedInput exactly in the Empty state; otherwise fails with ShapeMismatch exactly when gy's shape differs from the remembered input's; on success it is the rule at the remembered input |
| Functions.RememberInput | src/cell/function.rs:19 | for all three operations (`self.input = Some(input.clone())` in exp.rs, power.rs and square.rs): the new instance remembers exactly `v`, overwriting any earlier input, and keeps its operation and exponent |
| Functions.Call | src/cell/function.rs:10-16 | the output's data is forward of the input's data, with no gradient and no creator; the instance is Ready, remembers the input, and keeps its operation and exponent |
| Functions.ForwardIgnoresMemory | src/cell/function.rs:12 | forward gives the same result whatever the instance remembers |
| Functions.CallEnablesBackward | src/cell/function.rs:14 | after `call(v)`, backward succeeds for every gradient of v's shape |
| Functions.LatestInputWins | src/cell/function.rs:10-19 | for all three operations, whose `remember_input` overwrites the stored input: after calls with v1 then v2, the instance remembers v2, and backward equals backward after a single call with v2 |
| Functions.ExpBackwardOfOnesIsOutput | src/cell/function/exp.rs:50-72 | after `call(v)` on an exponential, backward on all-ones equals the data of the Variable `call` returned |
| Functions.PowerTwoIsSquare | src/cell/function/power.rs:24-33 | Power(2) and Square with the same remembered state agree on forward and on backward, including failures |
| Functions.PowerTwoForward | src/cell/function/power.rs:24-26 | the Power(2) forward rule and the Square forward rule give the same array |
| Functions.PowerTwoBackward | src/cell/function/power.rs:28-33 | the Power(2) backward rule and the Square backward rule give the same array |
| Scenarios.SquareScenario | src/cell/function/square.rs:45-60 | [[1,2],[3,4]] gives [[1,4],[9,16]]; backward on all-ones gives [[2,4],[6,8]] |
| Scenarios.PowerScenario | src/cell/function/power.rs:47-64 | with n = 5, [[1,2],[3,4]] gives [[1,32],[243,1024]]; backward on all-ones gives [[5,80],[405,1280]] |
| Scenarios.ExpScenario | src/cell/function/exp.rs:45-73 | [[1,2],[3,4]] gives [[exp 1, exp 2],[exp 3, exp 4]], and backward on all-ones gives the same array |

## Left out

- Floating point: arrays hold exact reals. Rounding, NaN and infinity are not modelled, and neither is the difference between `powi` and `powf`.
- PowerRule.Backward: at n = 0 and `x[i] == 0` the source computes `0^-1 * 0`, which is NaN. The model yields 0 there, and the contract says nothing about such elements.
- Functions.BackwardAt: the same n = 0, `x == 0` case is excluded from its Power contract, for the same reason.
- PowerRule.BackwardIsDerivative: it excludes the same n = 0, `x == 0` elements, for the same reason.
- The `usize` to `i32` cast of the exponent in `powi` is not modelled: exponents are unbounded naturals.
- The exponential's values: `exp` is a parameter, so nothing about `e^x` itself is proved.
- Broadcasting: ndarray would broadcast a compatible gradient of another shape. The model reports ShapeMismatch whenever the shapes differ.
- `remember_output`: the trait declares it, but no operation implements or uses it.
- Generic numeric element types, the `num`/`ndarray` trait bounds, and the `Function<T, F>` / `Function<T>` generic mismatch.
- Graph traversal and multi-node backpropagation: the source has none. `call` never sets the creator, and the model keeps it that way.
- Mutation: the `&mut self` methods are pure functions that return the new instance. `Call` takes its input Variable by value, so the caller's Variable cannot change. `Backward` returns only a result and no new instance, so the remembered input stays as it was.
