/** Length and bounds-safe positional access (`size`, `at`). */
module Access {
  import opened Optional

  /** `size`: the number of elements. */
  function Size<T>(s: seq<T>): nat
  {
    |s|
  }

  /** `at(index)`: Python's list indexing, where a negative index counts from
      the end, except that an index outside the list yields `None` instead of
      raising `IndexError`. */
  function At<T>(s: seq<T>, index: int): (r: Option<T>)
    ensures r.Some? <==> -|s| <= index < |s|
    ensures 0 <= index < |s| ==> r == Some(s[index])
    ensures -|s| <= index < 0 ==> r == Some(s[|s| + index])
  {
    // list.__getitem__ adds the length once to a negative index, then range-checks
    var k := if index < 0 then index + |s| else index;
    if 0 <= k < |s| then Some(s[k]) else None
  }

  /** `size` is the number of positions `at` can read from the front, and
      also from the back. */
  lemma SizeBoundsAt<T>(s: seq<T>)
    ensures forall i: nat :: At(s, i).Some? <==> i < Size(s)
    ensures forall i: int :: i < 0 ==> (At(s, i).Some? <==> 0 <= i + Size(s))
    ensures At(s, Size(s)) == None
  {
  }

  /** An end-relative index and its positive counterpart read the same element. */
  lemma AtNegativeAliasesPositive<T>(s: seq<T>, i: nat)
    requires i < |s|
    ensures At(s, i - |s|) == At(s, i) == Some(s[i])
  {
  }

  /** Reading a position of a prefix is unaffected by what follows it, and an
      end-relative position of a suffix by what precedes it. */
  lemma AtOfConcatenation<T>(a: seq<T>, b: seq<T>, i: int)
    ensures 0 <= i < |a| ==> At(a + b, i) == At(a, i)
    ensures -|b| <= i < 0 ==> At(a + b, i) == At(b, i)
  {
  }
}
