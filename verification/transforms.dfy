/** `map`, `filter` and `find`: the callback is called with one, two or three
    arguments according to the number of parameters it declares. */
module Transforms {
  import opened Optional
  import opened Exceptions
  import opened Arity
  import opened Access

  // ---------------------------------------------------------------- map

  /** The outputs for positions `k..|s|-1`, left to right, as the list
      comprehension produces them. */
  function MapFrom<T, U>(s: seq<T>, sh: Shape, f: Args<T> -> U, k: nat): (r: seq<U>)
    requires k <= |s|
    ensures |r| == |s| - k
    ensures forall j :: 0 <= j < |r| ==> r[j] == f(ArgsAt(sh, s, k + j))
    decreases |s| - k
  {
    if k == |s| then [] else [f(ArgsAt(sh, s, k))] + MapFrom(s, sh, f, k + 1)
  }

  /** `map(fun)`: a new list of the same length whose element `i` is the
      callback applied to element `i`, to element `i` and `i`, or to element
      `i`, `i` and the unmodified source list. */
  function Map<T, U>(s: seq<T>, c: Callee, f: Args<T> -> U): (r: Result<seq<U>, PyError>)
    ensures r.Err? <==> CheckParameters(c, false).Err?
    ensures r.Err? ==> r.error == CheckParameters(c, false).error
    ensures r.Ok? ==> |r.value| == |s|
    ensures r.Ok? && c.argCount == 1 ==> forall i :: 0 <= i < |s| ==> r.value[i] == f(Args1(s[i]))
    ensures r.Ok? && c.argCount == 2 ==> forall i :: 0 <= i < |s| ==> r.value[i] == f(Args2(s[i], i))
    ensures r.Ok? && c.argCount == 3 ==> forall i :: 0 <= i < |s| ==> r.value[i] == f(Args3(s[i], i, s))
  {
    match CheckParameters(c, false)
    case Err(e) => Err(e)
    case Ok(n) => Ok(MapFrom(s, ShapeOf(n), f, 0))
  }

  /** With a one-parameter callback, mapping a concatenation maps each part. */
  lemma {:induction false} MapOfConcatenation<T, U>(a: seq<T>, b: seq<T>, f: Args<T> -> U)
    ensures Map(a + b, Callable(1), f).Ok?
    ensures Map(a + b, Callable(1), f).value == Map(a, Callable(1), f).value + Map(b, Callable(1), f).value
  {
    var whole := MapFrom(a + b, ElemOnly, f, 0);
    var left := MapFrom(a, ElemOnly, f, 0);
    var right := MapFrom(b, ElemOnly, f, 0);
    forall i | 0 <= i < |whole|
      ensures whole[i] == (left + right)[i]
    {
      if i < |a| {
        calc {
          whole[i];
          f(Args1((a + b)[i]));
          f(Args1(a[i]));
          left[i];
        }
      } else {
        calc {
          whole[i];
          f(Args1((a + b)[i]));
          f(Args1(b[i - |a|]));
          right[i - |a|];
        }
      }
    }
    assert whole == left + right;
  }

  // ------------------------------------------------------------- filter

  /** Whether the predicate keeps the element at position `k`. */
  predicate Keeps<T>(sh: Shape, s: seq<T>, p: Args<T> -> bool, k: nat)
    requires k < |s|
  {
    p(ArgsAt(sh, s, k))
  }

  /** The positions in `k..|s|-1` the predicate keeps, in increasing order:
      the reference against which `filter` is stated. */
  function KeptFrom<T>(s: seq<T>, sh: Shape, p: Args<T> -> bool, k: nat): (ix: seq<nat>)
    requires k <= |s|
    ensures forall j :: 0 <= j < |ix| ==> k <= ix[j] < |s| && Keeps(sh, s, p, ix[j])
    ensures forall j, l :: 0 <= j < l < |ix| ==> ix[j] < ix[l]
    ensures forall i :: k <= i < |s| && Keeps(sh, s, p, i) ==> i in ix
    decreases |s| - k
  {
    if k == |s| then []
    else if Keeps(sh, s, p, k) then [k] + KeptFrom(s, sh, p, k + 1)
    else KeptFrom(s, sh, p, k + 1)
  }

  /** The kept elements of positions `k..|s|-1`, as the filtering list
      comprehension produces them. */
  function FilterFrom<T>(s: seq<T>, sh: Shape, p: Args<T> -> bool, k: nat): (r: seq<T>)
    requires k <= |s|
    ensures |r| == |KeptFrom(s, sh, p, k)|
    ensures forall j :: 0 <= j < |r| ==> r[j] == s[KeptFrom(s, sh, p, k)[j]]
    decreases |s| - k
  {
    if k == |s| then []
    else if Keeps(sh, s, p, k) then [s[k]] + FilterFrom(s, sh, p, k + 1)
    else FilterFrom(s, sh, p, k + 1)
  }

  /** `filter(fun)`: the elements at exactly the kept positions, in their
      original order; possibly none of them. */
  function Filter<T>(s: seq<T>, c: Callee, p: Args<T> -> bool): (r: Result<seq<T>, PyError>)
    ensures r.Err? <==> CheckParameters(c, false).Err?
    ensures r.Err? ==> r.error == CheckParameters(c, false).error
    ensures r.Ok? ==> |r.value| <= |s|
    ensures r.Ok? ==>
      var ix := KeptFrom(s, ShapeOf(c.argCount), p, 0);
      |r.value| == |ix| && forall j :: 0 <= j < |ix| ==> r.value[j] == s[ix[j]]
  {
    match CheckParameters(c, false)
    case Err(e) => Err(e)
    case Ok(n) =>
      var ix := KeptFrom(s, ShapeOf(n), p, 0);
      IncreasingPositionsFit(ix, |s|);
      Ok(FilterFrom(s, ShapeOf(n), p, 0))
  }

  /** Strictly increasing positions below `n` number at most `n`. */
  lemma {:induction false} IncreasingPositionsFit(ix: seq<nat>, n: nat)
    requires forall j :: 0 <= j < |ix| ==> ix[j] < n
    requires forall j, l :: 0 <= j < l < |ix| ==> ix[j] < ix[l]
    ensures |ix| <= n
  {
    if |ix| > 0 {
      var last := ix[|ix| - 1];
      var init := ix[..|ix| - 1];
      assert forall j :: 0 <= j < |init| ==> init[j] < last;
      IncreasingPositionsFit(init, last);
    }
  }

  /** `b` keeps some of the elements of `a` in their order. */
  predicate IsSubsequence<T(==)>(b: seq<T>, a: seq<T>)
    decreases |a|
  {
    if |b| == 0 then true
    else if |a| == 0 then false
    else (b[0] == a[0] && IsSubsequence(b[1..], a[1..])) || IsSubsequence(b, a[1..])
  }

  lemma {:induction false} FilterFromIsSubsequence<T>(s: seq<T>, sh: Shape, p: Args<T> -> bool, k: nat)
    requires k <= |s|
    ensures IsSubsequence(FilterFrom(s, sh, p, k), s[k..])
    decreases |s| - k
  {
    if k < |s| {
      FilterFromIsSubsequence(s, sh, p, k + 1);
      assert s[k..][1..] == s[k + 1..];
      var rest := FilterFrom(s, sh, p, k + 1);
      if Keeps(sh, s, p, k) {
        assert ([s[k]] + rest)[1..] == rest;
      } else if |rest| > 0 {
        assert IsSubsequence(rest, s[k..][1..]);
      }
    }
  }

  /** The kept elements appear in the source in the same relative order. */
  lemma FilterIsSubsequence<T>(s: seq<T>, c: Callee, p: Args<T> -> bool)
    requires CheckParameters(c, false).Ok?
    ensures IsSubsequence(Filter(s, c, p).value, s)
  {
    FilterFromIsSubsequence(s, ShapeOf(c.argCount), p, 0);
    assert s[0..] == s;
  }

  /** With a one-parameter predicate, a value is in the result exactly when it
      is in the source and satisfies the predicate. */
  lemma FilterKeepsExactlyTheMatches<T>(s: seq<T>, p: Args<T> -> bool)
    ensures Filter(s, Callable(1), p).Ok?
    ensures forall x :: x in Filter(s, Callable(1), p).value <==> x in s && p(Args1(x))
  {
    var r := Filter(s, Callable(1), p).value;
    var ix := KeptFrom(s, ElemOnly, p, 0);
    forall x
      ensures x in r <==> x in s && p(Args1(x))
    {
      if x in r {
        var j :| 0 <= j < |r| && r[j] == x;
        assert Keeps(ElemOnly, s, p, ix[j]);
      }
      if x in s && p(Args1(x)) {
        var i :| 0 <= i < |s| && s[i] == x;
        assert Keeps(ElemOnly, s, p, i);
        var j :| 0 <= j < |ix| && ix[j] == i;
        assert r[j] == x;
      }
    }
  }

  /** The result is empty exactly when the predicate keeps no position. */
  lemma FilterEmptyIffNoMatch<T>(s: seq<T>, c: Callee, p: Args<T> -> bool)
    requires CheckParameters(c, false).Ok?
    ensures Filter(s, c, p).Ok?
    ensures Filter(s, c, p).value == [] <==>
      forall i :: 0 <= i < |s| ==> !Keeps(ShapeOf(c.argCount), s, p, i)
  {
    var sh := ShapeOf(c.argCount);
    var ix := KeptFrom(s, sh, p, 0);
    if |ix| > 0 {
      assert Keeps(sh, s, p, ix[0]);
    }
  }

  // --------------------------------------------------------------- find

  /** An early-exit linear search for the first kept position at or after `k`:
      the reference against which `find` is stated. */
  function FirstMatchFrom<T>(s: seq<T>, sh: Shape, p: Args<T> -> bool, k: nat): (r: Option<nat>)
    requires k <= |s|
    ensures r.Some? ==>
      && k <= r.value < |s|
      && Keeps(sh, s, p, r.value)
      && forall i :: k <= i < r.value ==> !Keeps(sh, s, p, i)
    ensures r.None? ==> forall i :: k <= i < |s| ==> !Keeps(sh, s, p, i)
    decreases |s| - k
  {
    if k == |s| then None
    else if Keeps(sh, s, p, k) then Some(k)
    else FirstMatchFrom(s, sh, p, k + 1)
  }

  /** The first kept position is the first entry of the kept positions. */
  lemma FirstKeptIsFirstMatch<T>(s: seq<T>, sh: Shape, p: Args<T> -> bool)
    ensures var ix := KeptFrom(s, sh, p, 0);
      var m := FirstMatchFrom(s, sh, p, 0);
      (|ix| == 0 <==> m.None?) && (m.Some? ==> ix[0] == m.value)
  {
    var ix := KeptFrom(s, sh, p, 0);
    var m := FirstMatchFrom(s, sh, p, 0);
    if m.Some? {
      assert m.value in ix;
    }
  }

  /** `find(fun)`, defined as `filter(fun).at(0)`: the element at the first
      position the predicate keeps, or `None` when it keeps none. */
  function Find<T>(s: seq<T>, c: Callee, p: Args<T> -> bool): (r: Result<Option<T>, PyError>)
    ensures r.Err? <==> CheckParameters(c, false).Err?
    ensures r.Err? ==> r.error == CheckParameters(c, false).error
    ensures r.Ok? ==>
      var m := FirstMatchFrom(s, ShapeOf(c.argCount), p, 0);
      (r.value.None? <==> m.None?) && (m.Some? ==> r.value == Some(s[m.value]))
  {
    match Filter(s, c, p)
    case Err(e) => Err(e)
    case Ok(kept) =>
      FirstKeptIsFirstMatch(s, ShapeOf(c.argCount), p);
      Ok(At(kept, 0))
  }
}
