/**
 * Naming and bookkeeping of the Gaussian-process kernels in
 * `Orange/kernel/kernel.py`: which classes can be instantiated, the names a
 * kernel carries, the `kernel_name` and `active_dimensions` setters, the
 * names of sums and products, `gpkernel_sum` / `gpkernel_mul`, and the
 * `all_kernels` list. The covariance computations (GPy) are not modelled.
 */
module Kernels {
  import opened Wrappers
  import opened Text

  /** The classes the module defines. */
  datatype KernelClass =
    | Kernel | GPKernel | GPStationaryKernel
    | RBF | Matern32 | Matern52 | Exponential | Cosine | RatQuad
    | White | Bias | Periodic | Linear | Polynomial | MLP
    | Add | Prod

  /** The class's identifier in the module namespace. */
  function ClassName(c: KernelClass): string {
    match c
    case Kernel => "Kernel"
    case GPKernel => "GPKernel"
    case GPStationaryKernel => "GPStationaryKernel"
    case RBF => "RBF"
    case Matern32 => "Matern32"
    case Matern52 => "Matern52"
    case Exponential => "Exponential"
    case Cosine => "Cosine"
    case RatQuad => "RatQuad"
    case White => "White"
    case Bias => "Bias"
    case Periodic => "Periodic"
    case Linear => "Linear"
    case Polynomial => "Polynomial"
    case MLP => "MLP"
    case Add => "Add"
    case Prod => "Prod"
  }

  /** The class attribute `_kernel_name`; `Add` and `Prod` inherit the one of `GPKernel`. */
  function ClassKernelName(c: KernelClass): string {
    match c
    case Kernel => "Kernel"
    case GPKernel => "GP Kernel"
    case GPStationaryKernel => "Stationary Kernel"
    case RBF => "RBF"
    case Matern32 => "Matern 3/2"
    case Matern52 => "Matern 5/2"
    case Exponential => "Exponential"
    case Cosine => "Cosine"
    case RatQuad => "Rational Quadratic"
    case White => "White Noise"
    case Bias => "Bias"
    case Periodic => "Periodic"
    case Linear => "Linear"
    case Polynomial => "Polynomial"
    case MLP => "MLP"
    case Add => "GP Kernel"
    case Prod => "GP Kernel"
  }

  /** The classes whose constructor is `Kernel.__init__`, which only raises. */
  predicate IsAbstract(c: KernelClass) {
    c == Kernel || c == GPKernel || c == GPStationaryKernel
  }

  /** The classes built from sub-kernels rather than from active dimensions. */
  predicate IsCombination(c: KernelClass) {
    c == Add || c == Prod
  }

  /** The `TypeError` message of `Kernel.__init__` for an abstract class. */
  function AbstractMessage(c: KernelClass): (m: string)
    ensures m == ClassKernelName(c) + " represents an abstract class and cannot be instantiated"
  {
    ClassKernelName(c) + " represents an abstract class and cannot be instantiated"
  }

  /** `+` builds an `Add`, `*` a `Prod`. */
  datatype Operator = Plus | Times

  /** The word between the operands' names. */
  function Separator(op: Operator): string {
    match op
    case Plus => "_sum_"
    case Times => "_prod_"
  }

  /** The shape of a kernel: a leaf of a concrete class, or a sum or product of two kernels. */
  datatype Shape =
    | Leaf(cls: KernelClass)
    | Combined(op: Operator, left: Shape, right: Shape)

  /** The name `Add([a, b])` / `Prod([a, b])` gives itself. */
  function CombinedName(a: string, op: Operator, b: string): string {
    a + Separator(op) + b
  }

  /** A kernel object. `activeDims`/`inputDim` are `None` for a sum or product, whose dimensions GPy derives. */
  class Instance {
    const shape: Shape
    var kernelName: string
    var name: string
    var activeDims: Option<seq<int>>
    var inputDim: Option<nat>

    /** A concrete leaf class built on `activeDims`, passing its `kernel_name` to GPy as its name. */
    constructor Leaf(cls: KernelClass, activeDims: seq<int>)
      requires !IsAbstract(cls) && !IsCombination(cls)
      ensures shape == Shape.Leaf(cls)
      ensures kernelName == ClassKernelName(cls) && name == ClassKernelName(cls)
      ensures this.activeDims == Some(activeDims) && inputDim == Some(|activeDims|)
    {
      shape := Shape.Leaf(cls);
      kernelName := ClassKernelName(cls);
      name := ClassKernelName(cls);
      this.activeDims := Some(activeDims);
      inputDim := Some(|activeDims|);
    }

    /** `Add([a, b])` / `Prod([a, b])`: named after its operands, then the name set through the `kernel_name` setter. */
    constructor Combination(a: Instance, op: Operator, b: Instance)
      ensures shape == Combined(op, a.shape, b.shape)
      ensures kernelName == CombinedName(a.kernelName, op, b.kernelName)
      ensures name == kernelName
      ensures activeDims == None && inputDim == None
    {
      shape := Combined(op, a.shape, b.shape);
      kernelName := CombinedName(a.kernelName, op, b.kernelName);
      name := CombinedName(a.kernelName, op, b.kernelName);
      activeDims := None;
      inputDim := None;
    }

    /** `copy()`: a new object with the same fields. */
    constructor Copy(k: Instance)
      ensures shape == k.shape && kernelName == k.kernelName && name == k.name
      ensures activeDims == k.activeDims && inputDim == k.inputDim
    {
      shape := k.shape;
      kernelName := k.kernelName;
      name := k.name;
      activeDims := k.activeDims;
      inputDim := k.inputDim;
    }

    /** The `kernel_name` setter: both `_kernel_name` and GPy's `name` become `n`. */
    method SetKernelName(n: string)
      modifies this
      ensures kernelName == n && name == n
      ensures activeDims == old(activeDims) && inputDim == old(inputDim)
    {
      kernelName := n;
      name := n;
    }

    /** The `active_dimensions` setter: the dimensions and their number. */
    method SetActiveDimensions(dims: seq<int>)
      modifies this
      ensures activeDims == Some(dims) && inputDim == Some(|dims|)
      ensures kernelName == old(kernelName) && name == old(name)
    {
      activeDims := Some(dims);
      inputDim := Some(|dims|);
    }

    /** `self + other` and `self * other` (and `+=`, `*=`, which also build a new kernel). */
    method Apply(op: Operator, other: Instance) returns (r: Instance)
      ensures fresh(r)
      ensures r.shape == Combined(op, shape, other.shape)
      ensures r.kernelName == CombinedName(kernelName, op, other.kernelName) && r.name == r.kernelName
    {
      r := new Instance.Combination(this, op, other);
    }
  }

  /** The `TypeError` text of `Kernel.__init__(self)` when it is given the dimensions, as CPython before 3.10 words it (later versions prefix the qualified name). */
  const ExtraArgumentMessage: string := "__init__() takes 1 positional argument but 2 were given"

  /** The `TypeError` text of a leaf class's `__init__` when it is given no dimensions, as CPython before 3.10 words it (later versions prefix the qualified name). */
  const MissingDimensionsMessage: string := "__init__() missing 1 required positional argument: 'active_dims'"

  /**
   * Calling a class with no argument (`activeDims == None`) or with
   * `active_dims`. The abstract classes share `Kernel.__init__(self)`: a
   * bare call raises the abstract-class `TypeError`, a call with dimensions
   * fails on the argument count before reaching it. A leaf class needs its
   * dimensions and builds a new kernel from them.
   */
  method Instantiate(cls: KernelClass, activeDims: Option<seq<int>>) returns (r: Result<Instance, string>)
    requires !IsCombination(cls)
    ensures r.Ok? <==> !IsAbstract(cls) && activeDims.Some?
    ensures IsAbstract(cls) && activeDims.None? ==> r == Err(AbstractMessage(cls))
    ensures IsAbstract(cls) && activeDims.Some? ==> r == Err(ExtraArgumentMessage)
    ensures !IsAbstract(cls) && activeDims.None? ==> r == Err(MissingDimensionsMessage)
    ensures r.Ok? ==> fresh(r.value) && r.value.shape == Shape.Leaf(cls)
    ensures r.Ok? ==> r.value.kernelName == ClassKernelName(cls) && r.value.name == ClassKernelName(cls)
    ensures r.Ok? ==> r.value.activeDims == activeDims && r.value.inputDim == Some(|activeDims.value|)
  {
    if IsAbstract(cls) {
      if activeDims.None? {
        return Err(AbstractMessage(cls));
      }
      return Err(ExtraArgumentMessage);
    }
    if activeDims.None? {
      return Err(MissingDimensionsMessage);
    }
    var k := new Instance.Leaf(cls, activeDims.value);
    return Ok(k);
  }

  /** The `kernel_name`s of a list of kernels. */
  function Names(kernels: seq<Instance>): (names: seq<string>)
    reads set k | k in kernels
    ensures |names| == |kernels|
  {
    if kernels == [] then [] else Names(kernels[..|kernels| - 1]) + [kernels[|kernels| - 1].kernelName]
  }

  /** The shapes of a list of kernels. */
  function Shapes(kernels: seq<Instance>): (shapes: seq<Shape>)
    ensures |shapes| == |kernels|
  {
    if kernels == [] then [] else Shapes(kernels[..|kernels| - 1]) + [kernels[|kernels| - 1].shape]
  }

  /** The `i`-th name and shape are those of the `i`-th kernel. */
  lemma {:induction false} NamesAt(kernels: seq<Instance>, i: nat)
    requires i < |kernels|
    ensures Names(kernels)[i] == kernels[i].kernelName
    ensures Shapes(kernels)[i] == kernels[i].shape
    decreases |kernels|
  {
    if i < |kernels| - 1 {
      NamesAt(kernels[..|kernels| - 1], i);
    }
  }

  /** The name `reduce` gives a non-empty list: combined from the left. */
  function FoldedName(names: seq<string>, op: Operator): string
    requires names != []
    decreases |names|
  {
    if |names| == 1 then names[0]
    else CombinedName(FoldedName(names[..|names| - 1], op), op, names[|names| - 1])
  }

  /** The shape `reduce` gives a non-empty list: combined from the left. */
  function FoldedShape(shapes: seq<Shape>, op: Operator): Shape
    requires shapes != []
    decreases |shapes|
  {
    if |shapes| == 1 then shapes[0]
    else Combined(op, FoldedShape(shapes[..|shapes| - 1], op), shapes[|shapes| - 1])
  }

  /**
   * `gpkernel_sum` (`Plus`) and `gpkernel_mul` (`Times`): `None` for no
   * kernels, the kernel itself for one, otherwise copies combined from the left.
   */
  method Reduce(kernels: seq<Instance>, op: Operator) returns (r: Option<Instance>)
    ensures r.None? <==> kernels == []
    ensures |kernels| == 1 ==> r == Some(kernels[0])
    ensures r.Some? ==> r.value.kernelName == FoldedName(Names(kernels), op)
    ensures r.Some? ==> r.value.shape == FoldedShape(Shapes(kernels), op)
    ensures |kernels| > 1 ==> r.Some? && fresh(r.value)
  {
    if kernels == [] {
      return None;
    }
    var k := Fold(kernels, op);
    return Some(k);
  }

  /** `reduce` over a non-empty list. */
  method Fold(kernels: seq<Instance>, op: Operator) returns (acc: Instance)
    requires kernels != []
    ensures |kernels| == 1 ==> acc == kernels[0]
    ensures acc.kernelName == FoldedName(Names(kernels), op)
    ensures acc.shape == FoldedShape(Shapes(kernels), op)
    ensures |kernels| > 1 ==> fresh(acc)
  {
    ghost var names := Names(kernels);
    ghost var shapes := Shapes(kernels);
    acc := kernels[0];
    NamesAt(kernels, 0);
    assert names[..1] == [names[0]] && shapes[..1] == [shapes[0]];
    for i := 1 to |kernels|
      invariant acc.kernelName == FoldedName(names[..i], op)
      invariant acc.shape == FoldedShape(shapes[..i], op)
      invariant i > 1 ==> fresh(acc)
      invariant i == 1 ==> acc == kernels[0]
    {
      NamesAt(kernels, i);
      FoldedStep(names, shapes, i, op);
      acc := CombineCopies(acc, op, kernels[i]);
    }
    assert names[..|kernels|] == names && shapes[..|kernels|] == shapes;
  }

  /** Folding one more name or shape combines it on the right. */
  lemma FoldedStep(names: seq<string>, shapes: seq<Shape>, i: nat, op: Operator)
    requires 0 < i < |names| && i < |shapes|
    ensures FoldedName(names[..i + 1], op) == CombinedName(FoldedName(names[..i], op), op, names[i])
    ensures FoldedShape(shapes[..i + 1], op) == Combined(op, FoldedShape(shapes[..i], op), shapes[i])
  {
    assert names[..i + 1][..i] == names[..i] && shapes[..i + 1][..i] == shapes[..i];
  }

  /** One step of the fold: `x.copy() + y.copy()` (or `*`). */
  method CombineCopies(x: Instance, op: Operator, y: Instance) returns (r: Instance)
    ensures fresh(r)
    ensures r.kernelName == CombinedName(x.kernelName, op, y.kernelName)
    ensures r.shape == Combined(op, x.shape, y.shape)
  {
    var left := new Instance.Copy(x);
    var right := new Instance.Copy(y);
    r := left.Apply(op, right);
  }

  /** The left fold of names is the names joined by the separator. */
  lemma {:induction false} FoldedNameIsJoin(names: seq<string>, op: Operator)
    requires names != []
    ensures FoldedName(names, op) == Join(names, Separator(op))
    decreases |names|
  {
    if |names| > 1 {
      var init := names[..|names| - 1];
      FoldedNameIsJoin(init, op);
      JoinSnoc(init, names[|names| - 1], Separator(op));
      assert init + [names[|names| - 1]] == names;
    }
  }

  /** Joining one more piece appends the separator and the piece. */
  lemma {:induction false} JoinSnoc(parts: seq<string>, last: string, sep: string)
    requires parts != []
    ensures Join(parts + [last], sep) == Join(parts, sep) + sep + last
    decreases |parts|
  {
    if |parts| > 1 {
      JoinSnoc(parts[1..], last, sep);
      assert (parts + [last])[1..] == parts[1..] + [last];
    }
  }

  /** Three kernels of one name combine to `n_sum_n_sum_n` / `n_prod_n_prod_n`, grouped from the left. */
  lemma ThreeOfAKind(n: string, s: Shape, op: Operator)
    ensures FoldedName([n, n, n], op) == n + Separator(op) + n + Separator(op) + n
    ensures FoldedShape([s, s, s], op) == Combined(op, Combined(op, s, s), s)
  {
    assert [n, n, n][..2] == [n, n] && [n, n][..1] == [n];
    assert FoldedName([n, n], op) == n + Separator(op) + n;
    assert [s, s, s][..2] == [s, s] && [s, s][..1] == [s];
    assert FoldedShape([s, s], op) == Combined(op, s, s);
  }

  /** The classes in the module namespace, in the name order `inspect.getmembers` lists them. */
  const ModuleClasses: seq<KernelClass> := [
    Add, Bias, Cosine, Exponential, GPKernel, GPStationaryKernel, Kernel, Linear,
    MLP, Matern32, Matern52, Periodic, Polynomial, Prod, RBF, RatQuad, White]

  /** The names `get_all_kernels` leaves out. */
  const ExcludedNames: seq<string> := ["Kernel", "GPKernel", "GPStationaryKernel", "Add", "Prod"]

  /** `get_all_kernels` over a listing of classes: the ones whose name is not excluded, in order. */
  function AllKernelsOf(classes: seq<KernelClass>): (r: seq<KernelClass>)
    ensures forall c :: c in r <==> c in classes && ClassName(c) !in ExcludedNames
    decreases |classes|
  {
    if classes == [] then []
    else
      var rest := AllKernelsOf(classes[1..]);
      assert forall c :: c in classes <==> c == classes[0] || c in classes[1..];
      if ClassName(classes[0]) in ExcludedNames then rest else [classes[0]] + rest
  }

  /** `all_kernels`. */
  function AllKernels(): seq<KernelClass> {
    AllKernelsOf(ModuleClasses)
  }

  /** Exactly the abstract classes and the combinations are excluded by name. */
  lemma ExcludedByName(c: KernelClass)
    ensures ClassName(c) in ExcludedNames <==> IsAbstract(c) || IsCombination(c)
  {
  }

  /** Every class of `all_kernels` can be called with active dimensions, and each concrete leaf class is listed. */
  lemma AllKernelsInstantiable(c: KernelClass)
    ensures c in AllKernels() <==> !IsAbstract(c) && !IsCombination(c)
  {
    ExcludedByName(c);
    assert c in ModuleClasses by {
      match c
      case Kernel => assert ModuleClasses[6] == c;
      case _ => 
    }
  }
}
