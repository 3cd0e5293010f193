/** A node of the computation graph (src/cell/variable.rs): the array it holds,
    the gradient a backward pass may fill in, and the function that created it.
    `F` is the type of that creating function, as in the source's
    `Variable<T, F>`. */
module Variables {
  import opened Wrappers
  import opened Tensors

  datatype Variable<+F> = Variable(data: Tensor, grad: Option<Tensor>, creater: Option<F>)
  {
    /** A leaf is a user-supplied input or constant: nothing created it. */
    predicate IsLeaf()
    {
      creater.None?
    }
  }

  /** `Variable::new`: wraps an array as a leaf that has no gradient yet. */
  function New<F>(data: Tensor): (v: Variable<F>)
    ensures v.data == data
    ensures v.grad == None
    ensures v.IsLeaf()
  {
    Variable(data, None, None)
  }

  /** `set_creater`: records `f` as the creator, replacing any earlier one;
      the array and the gradient are untouched. */
  function SetCreater<F>(v: Variable<F>, f: F): (v': Variable<F>)
    ensures v'.creater == Some(f)
    ensures !v'.IsLeaf()
    ensures v'.data == v.data && v'.grad == v.grad
  {
    v.(creater := Some(f))
  }

  /** Only the latest creator is kept: setting `f` and then `g` is the same as
      setting `g` alone. */
  lemma SetCreaterOverwrites<F>(v: Variable<F>, f: F, g: F)
    ensures SetCreater(SetCreater(v, f), g) == SetCreater(v, g)
  {
  }

  /** A freshly built node becomes a computed (non-leaf) node only through
      `set_creater`, and keeps the array it was built from. */
  lemma NewThenSetCreater<F>(d: Tensor, f: F)
    ensures var v := SetCreater(New<F>(d), f);
      v.data == d && v.grad == None && v.creater == Some(f)
  {
  }
}
