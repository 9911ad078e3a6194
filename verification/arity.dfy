/** Classification of a callback by its declared parameter count, and the
    argument tuples each accepted count is called with. */
module Arity {
  import opened Optional
  import opened Exceptions

  /** What introspection reports about a callback: not callable; callable but
      without a `__code__` object (a builtin, a class, a `functools.partial`,
      an instance with `__call__`); or callable with a code object declaring
      `argCount` positional parameters (`co_argcount`, which for a bound
      method counts `self`). */
  datatype Callee = NotCallable | CallableWithoutCode | Callable(argCount: nat)

  /** Fewest parameters an operation accepts; `reduce` needs two. */
  function MinParameters(reduce: bool): nat
  {
    if reduce then 2 else 1
  }

  /** Most parameters an operation accepts; `reduce` allows four. */
  function MaxParameters(reduce: bool): nat
  {
    if reduce then 4 else 3
  }

  /** `__check_number_of_parameters`: accept the callback's parameter count or
      raise. The tests run in a fixed order, so a reducer with no parameter
      reports `TooFewParametersReduce` rather than `NoParameters`. */
  function CheckParameters(c: Callee, reduce: bool): (r: Result<nat, PyError>)
    ensures r.Ok? <==> c.Callable? && MinParameters(reduce) <= c.argCount <= MaxParameters(reduce)
    ensures r.Ok? ==> r.value == c.argCount
    ensures c.NotCallable? ==> r == Err(NonCallable)
    ensures c.CallableWithoutCode? ==> r == Err(AttributeError)
    ensures c.Callable? && reduce && c.argCount < 2 ==> r == Err(TooFewParametersReduce)
    ensures c.Callable? && !reduce && c.argCount == 0 ==> r == Err(NoParameters)
    ensures c.Callable? && c.argCount > MaxParameters(reduce) ==> r == Err(TooManyParameters)
  {
    match c
    case NotCallable => Err(NonCallable)
    case CallableWithoutCode => Err(AttributeError)
    case Callable(n) =>
      if n < 2 && reduce then Err(TooFewParametersReduce)
      else if n == 0 then Err(NoParameters)
      else if (n > 4 && reduce) || (n > 3 && !reduce) then Err(TooManyParameters)
      else Ok(n)
  }

  /** The three call forms of `map`, `filter` and `find`. */
  datatype Shape = ElemOnly | ElemIndex | ElemIndexSource
  {
    function Arity(): nat
    {
      match this
      case ElemOnly => 1
      case ElemIndex => 2
      case ElemIndexSource => 3
    }
  }

  /** The `if n == 1 … elif n == 2 … else` dispatch on an accepted count. */
  function ShapeOf(n: nat): (sh: Shape)
    requires 1 <= n <= 3
    ensures sh.Arity() == n
  {
    if n == 1 then ElemOnly else if n == 2 then ElemIndex else ElemIndexSource
  }

  /** The positional arguments handed to a transform callback. */
  datatype Args<T> =
    | Args1(x: T)
    | Args2(x: T, index: nat)
    | Args3(x: T, index: nat, source: seq<T>)
  {
    function Count(): nat
    {
      match this
      case Args1(_) => 1
      case Args2(_, _) => 2
      case Args3(_, _, _) => 3
    }
  }

  /** The arguments for the element at position `k`: the element, then its
      position as `enumerate` numbers it, then the whole unmodified list. */
  function ArgsAt<T>(sh: Shape, s: seq<T>, k: nat): (a: Args<T>)
    requires k < |s|
    ensures a.Count() == sh.Arity()
    ensures a.x == s[k]
    ensures !a.Args1? ==> a.index == k
    ensures a.Args3? ==> a.source == s
  {
    match sh
    case ElemOnly => Args1(s[k])
    case ElemIndex => Args2(s[k], k)
    case ElemIndexSource => Args3(s[k], k, s)
  }

  /** The three call forms of `reduce`. */
  datatype FoldShape = AccElem | AccElemIndex | AccElemIndexSource
  {
    function Arity(): nat
    {
      match this
      case AccElem => 2
      case AccElemIndex => 3
      case AccElemIndexSource => 4
    }
  }

  /** The `if n == 2 … elif n == 3 … else` dispatch of `reduce`. */
  function FoldShapeOf(n: nat): (sh: FoldShape)
    requires 2 <= n <= 4
    ensures sh.Arity() == n
  {
    if n == 2 then AccElem else if n == 3 then AccElemIndex else AccElemIndexSource
  }

  /** The positional arguments handed to a reducer. */
  datatype FoldArgs<T> =
    | Fold2(acc: T, x: T)
    | Fold3(acc: T, x: T, index: nat)
    | Fold4(acc: T, x: T, index: nat, source: seq<T>)
  {
    function Count(): nat
    {
      match this
      case Fold2(_, _) => 2
      case Fold3(_, _, _) => 3
      case Fold4(_, _, _, _) => 4
    }
  }

  /** The reducer's arguments: accumulator, element, index, list. */
  function FoldArgsFor<T>(sh: FoldShape, acc: T, x: T, index: nat, s: seq<T>): (a: FoldArgs<T>)
    ensures a.Count() == sh.Arity()
    ensures a.acc == acc && a.x == x
    ensures !a.Fold2? ==> a.index == index
    ensures a.Fold4? ==> a.source == s
  {
    match sh
    case AccElem => Fold2(acc, x)
    case AccElemIndex => Fold3(acc, x, index)
    case AccElemIndexSource => Fold4(acc, x, index, s)
  }

  /** Every accepted callback is called with exactly as many arguments as it
      declares. */
  lemma AcceptedCallsMatchDeclaration<T>(c: Callee, reduce: bool, s: seq<T>, k: nat, acc: T)
    requires CheckParameters(c, reduce).Ok?
    requires k < |s|
    ensures !reduce ==> ArgsAt(ShapeOf(c.argCount), s, k).Count() == c.argCount
    ensures reduce ==> FoldArgsFor(FoldShapeOf(c.argCount), acc, s[k], k, s).Count() == c.argCount
  {
  }
}
