/** `reduce`: a strictly sequential left fold whose reducer is called with two,
    three or four arguments according to the parameters it declares. */
module Fold {
  import opened Optional
  import opened Exceptions
  import opened Arity
  import opened Access

  /** The accumulator once positions `start..n-1` have been consumed left to
      right from `seed`, the reducer seeing each element's position in `s`:
      the reference against which `reduce` is stated. */
  function Accumulated<T>(s: seq<T>, sh: FoldShape, f: FoldArgs<T> -> T, seed: T, start: nat, n: nat): T
    requires start <= n <= |s|
    decreases n - start
  {
    if n == start then seed
    else f(FoldArgsFor(sh, Accumulated(s, sh, f, seed, start, n - 1), s[n - 1], n - 1, s))
  }

  /** The source's loop `for index, element in enumerate(it)`, where `it` has
      already skipped `offset` elements and the reducer is passed
      `index + offset`. */
  /** Folding up to `m` and then on to `n` is folding up to `n`. */
  lemma {:induction false} AccumulatedSplits<T>(s: seq<T>, sh: FoldShape, f: FoldArgs<T> -> T, seed: T, start: nat, m: nat, n: nat)
    requires start <= m <= n <= |s|
    ensures Accumulated(s, sh, f, Accumulated(s, sh, f, seed, start, m), m, n)
         == Accumulated(s, sh, f, seed, start, n)
    decreases n - m
  {
    if n > m {
      AccumulatedSplits(s, sh, f, seed, start, m, n - 1);
    }
  }

  /** The source's loop `for index, element in enumerate(it)`, where `it` has
      already skipped `offset` elements and the reducer is passed
      `index + offset`: from the current accumulator it yields the fold of
      the remaining positions, each seen at its true source position. */
  function Iterate<T>(s: seq<T>, sh: FoldShape, f: FoldArgs<T> -> T, value: T, offset: nat, index: nat): (r: T)
    requires offset + index <= |s|
    ensures r == Accumulated(s, sh, f, value, offset + index, |s|)
    decreases |s| - offset - index
  {
    if offset + index == |s| then value
    else
      var element := s[offset..][index];
      assert element == s[offset + index];
      AccumulatedSplits(s, sh, f, value, offset + index, offset + index + 1, |s|);
      Iterate(s, sh, f, f(FoldArgsFor(sh, value, element, index + offset, s)), offset, index + 1)
  }

  /** Adding the offset back to `enumerate`'s count gives the true source
      position, so the loop, started after `offset` skipped elements,
      computes the reference fold from `offset`. */
  lemma {:induction false} IterateIsLeftFold<T>(s: seq<T>, sh: FoldShape, f: FoldArgs<T> -> T, seed: T, offset: nat, index: nat)
    requires offset + index <= |s|
    ensures Iterate(s, sh, f, Accumulated(s, sh, f, seed, offset, offset + index), offset, index)
         == Accumulated(s, sh, f, seed, offset, |s|)
  {
    AccumulatedSplits(s, sh, f, seed, offset, offset + index, |s|);
  }

  /** `reduce(fun, initial)`. `initial` is `None` when no initial value is
      given: the fold then starts from the first element and consumes the rest,
      still passing true source positions; on an empty list `next(it)` raises
      `StopIteration`. */
  function Reduce<T>(s: seq<T>, c: Callee, f: FoldArgs<T> -> T, initial: Option<T>): (r: Result<T, PyError>)
    ensures r.Err? <==> CheckParameters(c, true).Err? || (initial.None? && |s| == 0)
    ensures CheckParameters(c, true).Err? ==> r == Err(CheckParameters(c, true).error)
    ensures CheckParameters(c, true).Ok? && initial.None? && |s| == 0 ==> r == Err(StopIteration)
    ensures r.Ok? && initial.Some? ==>
      r.value == Accumulated(s, FoldShapeOf(c.argCount), f, initial.value, 0, |s|)
    ensures r.Ok? && initial.None? ==>
      r.value == Accumulated(s, FoldShapeOf(c.argCount), f, s[0], 1, |s|)
  {
    match CheckParameters(c, true)
    case Err(e) => Err(e)
    case Ok(n) =>
      var sh := FoldShapeOf(n);
      match initial
      case Some(v) =>
        IterateIsLeftFold(s, sh, f, v, 0, 0);
        Ok(Iterate(s, sh, f, v, 0, 0))
      case None =>
        match At(s, 0)
        case None => Err(StopIteration)
        case Some(first) =>
          IterateIsLeftFold(s, sh, f, first, 1, 0);
          Ok(Iterate(s, sh, f, first, 1, 0))
  }

  /** An initial value on an empty list comes back unchanged. */
  lemma ReduceEmptyReturnsInitial<T>(c: Callee, f: FoldArgs<T> -> T, initial: T)
    requires CheckParameters(c, true).Ok?
    ensures Reduce([], c, f, Some(initial)) == Ok(initial)
  {
  }

  /** The arguments the reducer would see for a list that had `offset` more
      elements in front: the index moved forward and the whole list passed. */
  function Shift<T>(a: FoldArgs<T>, offset: nat, s: seq<T>): (b: FoldArgs<T>)
    ensures b.Count() == a.Count() && b.acc == a.acc && b.x == a.x
    ensures !a.Fold2? ==> b.index == a.index + offset
    ensures b.Fold4? ==> b.source == s
  {
    match a
    case Fold2(acc, x) => Fold2(acc, x)
    case Fold3(acc, x, i) => Fold3(acc, x, i + offset)
    case Fold4(acc, x, i, _) => Fold4(acc, x, i + offset, s)
  }

  /** Folding `s` from position `offset` is folding the suffix from its start
      with a reducer that adds `offset` to every index it is given and sees
      the whole list: the bookkeeping the source's `offset` performs. */
  lemma {:induction false} FoldFromOffsetIsShiftedFold<T>(s: seq<T>, sh: FoldShape, f: FoldArgs<T> -> T, seed: T, offset: nat, n: nat)
    requires offset <= n <= |s|
    ensures Accumulated(s, sh, f, seed, offset, n)
         == Accumulated(s[offset..], sh, a => f(Shift(a, offset, s)), seed, 0, n - offset)
    decreases n - offset
  {
    if n > offset {
      FoldFromOffsetIsShiftedFold(s, sh, f, seed, offset, n - 1);
      var t := s[offset..];
      var acc := Accumulated(s, sh, f, seed, offset, n - 1);
      assert t[n - 1 - offset] == s[n - 1];
      assert Shift(FoldArgsFor(sh, acc, s[n - 1], n - 1 - offset, t), offset, s)
          == FoldArgsFor(sh, acc, s[n - 1], n - 1, s);
    }
  }

  /** For a two-parameter reducer, which never sees an index, reducing without
      an initial value is reducing the tail with the first element as the
      initial value. */
  lemma ReduceWithoutInitialUsesFirstElement<T>(s: seq<T>, f: FoldArgs<T> -> T)
    requires |s| >= 1
    ensures Reduce(s, Callable(2), f, None) == Reduce(s[1..], Callable(2), f, Some(s[0]))
  {
    FoldFromOffsetIsShiftedFold(s, AccElem, f, s[0], 1, |s|);
    var g := a => f(Shift(a, 1, s));
    forall acc, x
      ensures f(Fold2(acc, x)) == g(Fold2(acc, x))
    {
      assert Shift(Fold2(acc, x), 1, s) == Fold2(acc, x);
    }
    SameReducer(s[1..], f, g, s[0], |s| - 1);
  }

  /** Two-parameter reducers that agree on every argument pair fold alike. */
  lemma {:induction false} SameReducer<T>(s: seq<T>, f: FoldArgs<T> -> T, g: FoldArgs<T> -> T, seed: T, n: nat)
    requires n <= |s|
    requires forall acc, x :: f(Fold2(acc, x)) == g(Fold2(acc, x))
    ensures Accumulated(s, AccElem, f, seed, 0, n) == Accumulated(s, AccElem, g, seed, 0, n)
  {
    if n > 0 {
      SameReducer(s, f, g, seed, n - 1);
    }
  }

  /** With a two-parameter reducer, the first `n` steps of a fold only look at
      the first `n` elements. */
  lemma {:induction false} FoldOfPrefix<T>(a: seq<T>, b: seq<T>, f: FoldArgs<T> -> T, seed: T, n: nat)
    requires n <= |a|
    ensures Accumulated(a + b, AccElem, f, seed, 0, n) == Accumulated(a, AccElem, f, seed, 0, n)
  {
    if n > 0 {
      FoldOfPrefix(a, b, f, seed, n - 1);
      assert (a + b)[n - 1] == a[n - 1];
    }
  }

  /** With a two-parameter reducer, folding past the end of `a` continues
      with a fold over `b` seeded with the fold of `a`. */
  lemma {:induction false} FoldOfSuffix<T>(a: seq<T>, b: seq<T>, f: FoldArgs<T> -> T, seed: T, m: nat)
    requires m <= |b|
    ensures Accumulated(a + b, AccElem, f, seed, 0, |a| + m)
         == Accumulated(b, AccElem, f, Accumulated(a, AccElem, f, seed, 0, |a|), 0, m)
  {
    if m == 0 {
      FoldOfPrefix(a, b, f, seed, |a|);
    } else {
      FoldOfSuffix(a, b, f, seed, m - 1);
      assert (a + b)[|a| + m - 1] == b[m - 1];
    }
  }

  /** With a two-parameter reducer and an initial value, reducing a
      concatenation reduces the second part from the result of the first. */
  lemma ReduceOfConcatenation<T>(a: seq<T>, b: seq<T>, f: FoldArgs<T> -> T, initial: T)
    ensures Reduce(a + b, Callable(2), f, Some(initial)).Ok?
    ensures Reduce(a + b, Callable(2), f, Some(initial))
         == Reduce(b, Callable(2), f, Some(Reduce(a, Callable(2), f, Some(initial)).value))
  {
    FoldOfSuffix(a, b, f, initial, |b|);
  }

  /** The sum reducer `lambda acc, x: acc + x`. */
  function Sum(a: FoldArgs<int>): int
  {
    a.acc + a.x
  }

  /** Summing `[1, 2, 3, 4]` gives 10, and 20 from the initial value 10. */
  lemma SumExamples()
    ensures Reduce([1, 2, 3, 4], Callable(2), Sum, None) == Ok(10)
    ensures Reduce([1, 2, 3, 4], Callable(2), Sum, Some(10)) == Ok(20)
  {
    var s := [1, 2, 3, 4];
    assert Accumulated(s, AccElem, Sum, 1, 1, 4) == 10;
    assert Accumulated(s, AccElem, Sum, 10, 0, 4) == 20;
  }

  // ------------------------------------------------------ as written

  /** `reduce` as the source writes it: its three loops call the unbound name
      `function` instead of `fun`, so the first element the loop consumes
      raises `NameError`; only a loop with nothing to consume returns. */
  function ReduceAsWritten<T>(s: seq<T>, c: Callee, f: FoldArgs<T> -> T, initial: Option<T>): (r: Result<T, PyError>)
    ensures CheckParameters(c, true).Err? ==> r == Err(CheckParameters(c, true).error)
    ensures CheckParameters(c, true).Ok? ==>
      (r == Err(NameError) <==> |s| > (if initial.None? then 1 else 0))
  {
    match CheckParameters(c, true)
    case Err(e) => Err(e)
    case Ok(_) =>
      match initial
      case Some(v) => if |s| > 0 then Err(NameError) else Ok(v)
      case None =>
        match At(s, 0)
        case None => Err(StopIteration)
        case Some(first) => if |s| > 1 then Err(NameError) else Ok(first)
  }

  /** Wherever the loop body is never reached, the source agrees with the
      corrected `reduce`. */
  lemma AsWrittenAgreesWithoutLoopBody<T>(s: seq<T>, c: Callee, f: FoldArgs<T> -> T, initial: Option<T>)
    requires ReduceAsWritten(s, c, f, initial) != Err(NameError)
    ensures ReduceAsWritten(s, c, f, initial) == Reduce(s, c, f, initial)
  {
  }

  /** The source's own example: summing `[1, 2, 3, 4]` raises `NameError`
      where 10 is intended. */
  lemma SumRaisesNameErrorAsWritten()
    ensures ReduceAsWritten([1, 2, 3, 4], Callable(2), Sum, None) == Err(NameError)
    ensures Reduce([1, 2, 3, 4], Callable(2), Sum, None) == Ok(10)
  {
    SumExamples();
  }
}
