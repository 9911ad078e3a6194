# FunctionalList in Dafny

A model of `FunctionalList`, a Python `list` subclass with JavaScript-style
higher-order methods. A callback may declare one, two or three parameters
(two to four for `reduce`), and the list decides from that count whether to
pass the element alone, the element and its index, or also the whole list.

The model replaces run-time introspection with an explicit description of the
callback, `Arity.Callee = NotCallable | CallableWithoutCode | Callable(argCount)`, and gives the
callback itself as a total Dafny function over a tuple of arguments
(`Args1 | Args2 | Args3`, `Fold2 | Fold3 | Fold4`). The dispatch builds exactly
the tuple the declared count asks for. Python exceptions become the
`Exceptions.PyError` constructors of a `Result`, and Python's `None` returned by
`at` and `find` becomes `Optional.None`.

Modules, following the source:

- `Optional`, `Exceptions`: `Option`, `Result`, and one constructor for each
  of the four classes of `exceptions.py`, plus the builtin exceptions the
  modelled paths raise: `AttributeError` (a callable without `__code__`),
  `StopIteration`, `NameError` and `TypeError`. Exceptions a callback itself
  raises are not among them.
- `Access`: `size` and the bounds-safe `at`.
- `Arity`: `__check_number_of_parameters` and the call forms it selects.
- `Transforms`: `map`, `filter`, `find`.
- `Fold`: `reduce`, both as intended and as written.
- `Flatten`: `__flattened_generator` and `flat`, both as intended and as written.

Each operation is stated against an independent reference. `filter` is
stated against the list of kept positions. `find` is stated against an
early-exit linear search. `reduce` is stated against a fold by true source
position. `flat` is stated through the atoms it keeps and the nesting depth it
removes.

The model follows the code's own error behaviour. An empty list reduced
without an initial value raises `StopIteration` from `next(it)`; the code has
no dedicated "empty sequence" error, so the model returns
`Err(StopIteration)`.

## Model

| member | source | states |
|---|---|---|
| `Access.SizeBoundsAt` | FunctionalList/functional_list.py:6-16 | `size` is exactly the number of non-negative indices `at` can read, and of negative ones; `at(size)` is `None` |
| `Access.At` | FunctionalList/functional_list.py:18-33 | `at` yields a value exactly for indices in `[-size, size)`: element `i` for `i >= 0`, element `size + i` for negative `i`, and `None` for any other integer, never an error |
| `Access.AtNegativeAliasesPositive` | FunctionalList/functional_list.py:22-23 | the end-relative index `i - size` reads the same element as position `i` |
| `Access.AtOfConcatenation` | FunctionalList/functional_list.py:30-33 | a non-negative index into a prefix ignores what follows it, and a negative index into a suffix ignores what precedes it |
| `Arity.CheckParameters` | FunctionalList/functional_list.py:35-52 | a callback is accepted exactly when it is callable, has a code object, and declares 1..3 parameters (2..4 for `reduce`), and the count comes back unchanged. A non-callable raises `NonCallable`; a callable without `__code__` raises `AttributeError`. A reducer with fewer than two parameters raises `TooFewParametersReduce`, zero included, because that test runs first. Any other zero-parameter callback raises `NoParameters`, and one above the maximum raises `TooManyParameters` |
| `Arity.ShapeOf` | FunctionalList/functional_list.py:72-76 | the `1 / 2 / otherwise` dispatch picks the call form whose arity is the accepted count |
| `Arity.ArgsAt` | FunctionalList/functional_list.py:73-76 | the callback for position `k` receives the element, then `k`, then the unmodified source list, and exactly as many arguments as its form's arity |
| `Arity.FoldShapeOf` | FunctionalList/functional_list.py:157-165 | the `2 / 3 / otherwise` dispatch of `reduce` picks the form whose arity is the accepted count |
| `Arity.FoldArgsFor` | FunctionalList/functional_list.py:159-165 | the reducer receives the accumulator, the element, then the index, then the source list, as many as its form's arity |
| `Arity.AcceptedCallsMatchDeclaration` | FunctionalList/functional_list.py:60-66 | every accepted callback is called with exactly as many arguments as it declares, for transforms and for `reduce` alike |
| `Transforms.MapFrom` | FunctionalList/functional_list.py:72-76 | the comprehension over positions `k..` yields one output per position, the output at offset `j` being the callback applied to position `k + j` |
| `Transforms.Map` | FunctionalList/functional_list.py:54-76 | `map` fails exactly when the parameter check fails, and with its error. Otherwise it returns a list of the source's length whose element `i` is `f(x)`, `f(x, i)` or `f(x, i, source)`, where `x` is source element `i` |
| `Transforms.MapOfConcatenation` | FunctionalList/functional_list.py:73 | with a one-parameter callback, mapping `a + b` is mapping `a` followed by mapping `b` |
| `Transforms.KeptFrom` | FunctionalList/functional_list.py:98-101 | the kept positions are strictly increasing, in range, all satisfy the predicate, and include every position that does |
| `Transforms.FilterFrom` | FunctionalList/functional_list.py:98-101 | the filtering comprehension yields, in order, the source elements at the kept positions |
| `Transforms.Filter` | FunctionalList/functional_list.py:78-101 | `filter` fails exactly when the parameter check fails. Otherwise its result is no longer than the source and is, in order, the elements at exactly the positions the predicate keeps |
| `Transforms.FilterIsSubsequence` | FunctionalList/functional_list.py:94-101 | the result of `filter` is an order-preserving subsequence of the source |
| `Transforms.FilterKeepsExactlyTheMatches` | FunctionalList/functional_list.py:80-84 | with a one-parameter predicate, a value is in the result if and only if it is in the source and satisfies the predicate |
| `Transforms.FilterEmptyIffNoMatch` | FunctionalList/functional_list.py:94 | the result is empty if and only if the predicate keeps no position |
| `Transforms.FirstMatchFrom` | FunctionalList/functional_list.py:105 | the early-exit search returns the least position satisfying the predicate, or none when no position does |
| `Transforms.FirstKeptIsFirstMatch` | FunctionalList/functional_list.py:106 | the first kept position is the one the early-exit search finds, and there is none exactly when the search finds none |
| `Transforms.Find` | FunctionalList/functional_list.py:103-115 | `find` fails exactly when the parameter check fails. Otherwise it returns the element at the first position the predicate keeps, or `None` exactly when no position is kept |
| `Fold.AccumulatedSplits` | FunctionalList/functional_list.py:157-165 | the fold by true position can be stopped at any position and resumed from the accumulator reached there |
| `Fold.Iterate` | FunctionalList/functional_list.py:157-165 | the loop over `enumerate(it)`, passing `index + offset`, turns the current accumulator into the fold of all remaining positions, each seen at its true source position |
| `Fold.IterateIsLeftFold` | FunctionalList/functional_list.py:148-165 | the loop over the iterator advanced by `offset`, passing `index + offset`, computes the fold that passes each element's true source position |
| `Fold.Reduce` | FunctionalList/functional_list.py:117-166 | `reduce` fails exactly on a rejected reducer (with its error) or on an empty list without an initial value (`StopIteration`). With an initial value it is the left fold of the whole list from it. Without one it is the left fold of positions `1..` seeded with element 0. In both cases the reducer sees true source positions |
| `Fold.ReduceEmptyReturnsInitial` | FunctionalList/functional_list.py:138-143 | reducing an empty list returns the initial value unchanged |
| `Fold.Shift` | FunctionalList/functional_list.py:162-165 | rebasing reducer arguments adds the offset to the index and substitutes the whole list, leaving accumulator and element alone |
| `Fold.FoldFromOffsetIsShiftedFold` | FunctionalList/functional_list.py:150-156 | folding from position `offset` equals folding the suffix from its start with a reducer that adds `offset` back to each index and sees the whole list |
| `Fold.ReduceWithoutInitialUsesFirstElement` | FunctionalList/functional_list.py:122-123 | for a two-parameter reducer, reducing without an initial value equals reducing the tail with element 0 as the initial value |
| `Fold.ReduceOfConcatenation` | FunctionalList/functional_list.py:119-120 | for a two-parameter reducer, reducing `a + b` from `x` equals reducing `b` from the result of reducing `a` from `x` |
| `Fold.SumExamples` | FunctionalList/functional_list.py:157-159 | summing `[1, 2, 3, 4]` gives 10 without an initial value and 20 from the initial value 10 |
| `Fold.ReduceAsWritten` | FunctionalList/functional_list.py:147-166 | the code as written passes the parameter check and the `StopIteration` case, then raises `NameError` exactly when its loop has an element to consume |
| `Fold.AsWrittenAgreesWithoutLoopBody` | FunctionalList/functional_list.py:157-166 | whenever the code as written does not raise `NameError`, it returns what the corrected `reduce` returns |
| `Fold.SumRaisesNameErrorAsWritten` | FunctionalList/functional_list.py:159 | summing `[1, 2, 3, 4]` raises `NameError` as written, where the corrected `reduce` gives 10 |
| `Flatten.FlattenOnce` | FunctionalList/functional_list.py:168-174 | one pass yields as many elements as the nested lists have members plus the number of atoms |
| `Flatten.FlattenOnceOfConcatenation` | FunctionalList/functional_list.py:169-174 | a pass over `a + b` is the pass over `a` followed by the pass over `b`, so each element is expanded in place |
| `Flatten.FlattenOnceKeepsLeaves` | FunctionalList/functional_list.py:168-174 | a pass keeps every atom, at any depth, in its left-to-right order |
| `Flatten.FlattenOnceLowersDepth` | FunctionalList/functional_list.py:168-174 | a pass lowers the nesting depth by exactly one level, not below zero |
| `Flatten.Flat` | FunctionalList/functional_list.py:176-193 | `flat(depth)` returns the list itself for `depth <= 0`. For a positive depth it removes `depth` levels of nesting, not below zero. For every depth it keeps every atom in order |
| `Flatten.FlatComposes` | FunctionalList/functional_list.py:191-193 | flattening by `a` levels and then by `b` equals flattening by `a + b` |
| `Flatten.FlatFully` | FunctionalList/functional_list.py:178 | flattening at least as deep as the nesting yields exactly the atoms, in order |
| `Flatten.FlatExamples` | FunctionalList/functional_list.py:176-193 | `[1, [2, 3], [4, [5, 6]]]` flattens to `[1, 2, 3, 4, [5, 6]]` at depth 1 and to `[1, 2, 3, 4, 5, 6]` at depth 2 |
| `Flatten.FlatAsWritten` | FunctionalList/functional_list.py:186-190 | the code as written copies the list for `depth <= 0` and raises `TypeError` for every positive depth |
| `Flatten.FlatAsWrittenFailsOnExample` | FunctionalList/functional_list.py:190 | as written, `flat(1)` on the example raises `TypeError`, while the corrected `flat` changes the list. For `depth <= 0` the two agree |

## Left out

- Introspection (`callable(fun)`, `fun.__code__.co_argcount`) is replaced by the `Callee` value a caller supplies. Keyword-only, default and `*args` parameters are not modelled.
- `Arity.CheckParameters`: a callable without a code object (`str`, `len`, a class, a `functools.partial`, an object with `__call__`) is `CallableWithoutCode` and raises `AttributeError`. For a bound method, `co_argcount` counts `self`, so a method taking one argument is called with `(x, index)`. The model takes the reported count as given and does not derive it from a signature.
- The `type(index) != int` and `type(depth) != int` guards are not modelled. Dafny `int` parameters make them unreachable, and `bool` arguments (rejected by the exact-type test) have no counterpart.
- `hasattr(val, '__iter__')`: `Flatten.Val` makes the choice between atom and nested list explicit. Strings, dictionaries, sets and generators are not modelled. Python would expand a string into its characters, and whether that is intended is open.
- Callbacks are pure, total Dafny functions. Side effects, exceptions raised by a callback and the observable evaluation order are not modelled. A `filter`/`find` predicate returns `bool` rather than a value read for its truthiness.
- `Access.At`, `Transforms.Find`: the model tells a `None` element apart from absence (`Some(None)` against `None`). In Python, `at(i)` on an element that is `None`, and `find` whose first match is `None`, both return `None`, which the caller cannot tell from "absent".
- `Fold.Reduce`: the initial value is an `Option`. The source cannot tell an explicit `initial=None` from no initial value and would seed with element 0. The model cannot express a `None` element passed as the initial value.
- `Fold.Reduce`: accumulator, elements and reducer result share one type, as the source's documentation asks; Python would accept a reducer that changes type.
- `Transforms.MapOfConcatenation`, `Fold.ReduceWithoutInitialUsesFirstElement`, `Fold.ReduceOfConcatenation`: stated only for callbacks that do not see the index or the list. Those that do see them observe different positions or a different list, so the equations do not hold for them.
- `Flatten.Flat`: `self.copy()` is a shallow copy. With value semantics the model returns the list itself, and independence from later mutation is not expressible. `list.copy()` on the subclass also returns a plain `list`, not a `FunctionalList`, so in Python `fl.flat(0).map(...)` raises `AttributeError`. This contradicts the docstring at lines 181-182. The model has no class distinction and does not show it. The default `depth = 1` is not modelled: `Flat` always takes an explicit depth.
- The exception messages, the rest of the inherited `list` interface, in-place mutation, and `setup.py` (packaging metadata) are not modelled.

## Findings

| source | as written | input that shows it | evidently intended | confidence | as-written member | corrected member |
|---|---|---|---|---|---|---|
| FunctionalList/functional_list.py:159 | the three reduce loops (lines 159, 162, 165) call `function`, a name bound nowhere, so `NameError` is raised as soon as the loop consumes an element | `reduce(lambda acc, x: acc + x)` on `[1, 2, 3, 4]` | call the argument `fun`, giving 10 | high; not executed | `Fold.ReduceAsWritten` (counterexample `Fold.SumRaisesNameErrorAsWritten`) | `Fold.Reduce` |
| FunctionalList/functional_list.py:190 | `FunctionalList(self.__flattened_generator)` passes the bound method instead of calling it, and a method is not iterable, so every positive depth raises `TypeError` | `flat(1)` on `[1, [2, 3], [4, [5, 6]]]` | pass `self.__flattened_generator()`, giving `[1, 2, 3, 4, [5, 6]]` | high; not executed | `Flatten.FlatAsWritten` (counterexample `Flatten.FlatAsWrittenFailsOnExample`) | `Flatten.Flat` |
