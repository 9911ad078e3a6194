/** `flat` and its one-pass helper `__flattened_generator`. */
module Flatten {
  import opened Optional
  import opened Exceptions

  /** A list element: an atom, or a nested list whose members one flattening
      pass splices into its place. */
  datatype Val<A> = Atom(value: A) | Nested(items: seq<Val<A>>)

  /** What one element contributes to a flattening pass: the members of a
      nested list, or the atom itself. */
  function Expand<A>(v: Val<A>): seq<Val<A>>
  {
    match v
    case Atom(_) => [v]
    case Nested(items) => items
  }

  /** The number of atoms directly in `s`. */
  function AtomCount<A>(s: seq<Val<A>>): nat
  {
    if |s| == 0 then 0 else (if s[0].Atom? then 1 else 0) + AtomCount(s[1..])
  }

  /** The total number of members of the nested lists directly in `s`. */
  function MemberCount<A>(s: seq<Val<A>>): nat
  {
    if |s| == 0 then 0 else (if s[0].Nested? then |s[0].items| else 0) + MemberCount(s[1..])
  }

  /** `__flattened_generator`: one pass that replaces every nested list by its
      members, in order, and passes atoms through. */
  function FlattenOnce<A>(s: seq<Val<A>>): (r: seq<Val<A>>)
    ensures |r| == MemberCount(s) + AtomCount(s)
  {
    if |s| == 0 then [] else Expand(s[0]) + FlattenOnce(s[1..])
  }

  /** The atoms of `s` at every depth, left to right. */
  function Leaves<A>(s: seq<Val<A>>): (r: seq<Val<A>>)
    ensures forall i :: 0 <= i < |r| ==> r[i].Atom?
  {
    if |s| == 0 then []
    else
      (match s[0]
       case Atom(_) => [s[0]]
       case Nested(items) => Leaves(items))
      + Leaves(s[1..])
  }

  /** How deeply lists nest in `s`: 0 when every element is an atom. */
  function MaxDepth<A>(s: seq<Val<A>>): nat
  {
    if |s| == 0 then 0
    else
      var head := match s[0] case Atom(_) => 0 case Nested(items) => 1 + MaxDepth(items);
      var tail := MaxDepth(s[1..]);
      if head < tail then tail else head
  }

  /** A nesting depth `d` after `levels` levels are removed, never below zero. */
  function Lower(d: nat, levels: nat): nat
  {
    if d <= levels then 0 else d - levels
  }

  lemma {:induction false} FlattenOnceOfConcatenation<A>(a: seq<Val<A>>, b: seq<Val<A>>)
    ensures FlattenOnce(a + b) == FlattenOnce(a) + FlattenOnce(b)
  {
    if |a| > 0 {
      assert (a + b)[0] == a[0];
      assert (a + b)[1..] == a[1..] + b;
      FlattenOnceOfConcatenation(a[1..], b);
    } else {
      assert a + b == b;
    }
  }

  lemma {:induction false} LeavesOfConcatenation<A>(a: seq<Val<A>>, b: seq<Val<A>>)
    ensures Leaves(a + b) == Leaves(a) + Leaves(b)
  {
    if |a| > 0 {
      assert (a + b)[0] == a[0];
      assert (a + b)[1..] == a[1..] + b;
      LeavesOfConcatenation(a[1..], b);
    } else {
      assert a + b == b;
    }
  }

  lemma {:induction false} MaxDepthOfConcatenation<A>(a: seq<Val<A>>, b: seq<Val<A>>)
    ensures MaxDepth(a + b) == if MaxDepth(a) < MaxDepth(b) then MaxDepth(b) else MaxDepth(a)
  {
    if |a| > 0 {
      assert (a + b)[0] == a[0];
      assert (a + b)[1..] == a[1..] + b;
      MaxDepthOfConcatenation(a[1..], b);
    } else {
      assert a + b == b;
    }
  }

  /** A pass keeps every atom, in order, at whatever depth it sits. */
  lemma {:induction false} FlattenOnceKeepsLeaves<A>(s: seq<Val<A>>)
    ensures Leaves(FlattenOnce(s)) == Leaves(s)
  {
    if |s| > 0 {
      LeavesOfConcatenation(Expand(s[0]), FlattenOnce(s[1..]));
      FlattenOnceKeepsLeaves(s[1..]);
      if s[0].Atom? {
        assert Leaves(Expand(s[0])) == [s[0]] by {
          assert Expand(s[0])[1..] == [];
        }
      }
    }
  }

  /** A pass removes exactly one level of nesting. */
  lemma {:induction false} FlattenOnceLowersDepth<A>(s: seq<Val<A>>)
    ensures MaxDepth(FlattenOnce(s)) == Lower(MaxDepth(s), 1)
  {
    if |s| > 0 {
      MaxDepthOfConcatenation(Expand(s[0]), FlattenOnce(s[1..]));
      FlattenOnceLowersDepth(s[1..]);
      if s[0].Atom? {
        assert MaxDepth(Expand(s[0])) == 0 by {
          assert Expand(s[0])[1..] == [];
        }
      }
    }
  }

  /** A list without nesting is its own list of atoms. */
  lemma {:induction false} ShallowIsLeaves<A>(s: seq<Val<A>>)
    requires MaxDepth(s) == 0
    ensures Leaves(s) == s
  {
    if |s| > 0 {
      ShallowIsLeaves(s[1..]);
    }
  }

  /** `flat(depth)`: a copy for `depth <= 0`; otherwise one pass, repeated on
      its result while levels remain. Every atom survives in order, and
      `depth` levels of nesting disappear. */
  function Flat<A>(s: seq<Val<A>>, depth: int): (r: seq<Val<A>>)
    ensures depth <= 0 ==> r == s
    ensures depth > 0 ==> MaxDepth(r) == Lower(MaxDepth(s), depth)
    ensures Leaves(r) == Leaves(s)
    decreases depth
  {
    if depth <= 0 then s
    else
      var once := FlattenOnce(s);
      FlattenOnceKeepsLeaves(s);
      FlattenOnceLowersDepth(s);
      if depth == 1 then once else Flat(once, depth - 1)
  }

  /** Flattening by `a` levels and then by `b` is flattening by `a + b`. */
  lemma {:induction false} FlatComposes<A>(s: seq<Val<A>>, a: nat, b: nat)
    ensures Flat(Flat(s, a), b) == Flat(s, a + b)
    decreases a
  {
    if a > 0 {
      var once := FlattenOnce(s);
      if a > 1 {
        FlatComposes(once, a - 1, b);
      }
      assert Flat(s, a) == Flat(once, a - 1);
      assert Flat(s, a + b) == Flat(once, a + b - 1);
    }
  }

  /** Flattening at least as deep as the nesting yields exactly the atoms, in
      order. */
  lemma FlatFully<A>(s: seq<Val<A>>, depth: int)
    requires depth >= MaxDepth(s)
    ensures Flat(s, depth) == Leaves(s)
  {
    ShallowIsLeaves(Flat(s, depth));
  }

  /** `[1, [2, 3], [4, [5, 6]]]`. */
  function Example(): seq<Val<int>>
  {
    [Atom(1), Nested([Atom(2), Atom(3)]), Nested([Atom(4), Nested([Atom(5), Atom(6)])])]
  }

  /** One level gives `[1, 2, 3, 4, [5, 6]]`; two give `[1, 2, 3, 4, 5, 6]`. */
  lemma FlatExamples()
    ensures Flat(Example(), 1)
         == [Atom(1), Atom(2), Atom(3), Atom(4), Nested([Atom(5), Atom(6)])]
    ensures Flat(Example(), 2) == [Atom(1), Atom(2), Atom(3), Atom(4), Atom(5), Atom(6)]
  {
    var once := [Atom(1), Atom(2), Atom(3), Atom(4), Nested([Atom(5), Atom(6)])];
    assert FlattenOnce(Example()) == once by {
      assert Example()[1..][1..][1..] == [];
    }
    assert FlattenOnce(once) == [Atom(1), Atom(2), Atom(3), Atom(4), Atom(5), Atom(6)] by {
      assert once[1..][1..][1..][1..][1..] == [];
    }
  }

  // ------------------------------------------------------ as written

  /** `flat` as the source writes it: for `depth >= 1` it hands the bound
      method `__flattened_generator`, not the generator it would return, to
      the list constructor, which raises `TypeError`. */
  function FlatAsWritten<A>(s: seq<Val<A>>, depth: int): (r: Result<seq<Val<A>>, PyError>)
    ensures r.Ok? <==> depth <= 0
    ensures r.Ok? ==> r.value == s
    ensures r.Err? ==> r.error == TypeError
  {
    if depth <= 0 then Ok(s) else Err(TypeError)
  }

  /** Only the copying case works as written; there it agrees with `Flat`. */
  lemma FlatAsWrittenFailsOnExample()
    ensures FlatAsWritten(Example(), 1) == Err(TypeError)
    ensures Flat(Example(), 1) != Example()
    ensures forall d :: d <= 0 ==> FlatAsWritten(Example(), d) == Ok(Flat(Example(), d))
  {
    FlatExamples();
    assert Flat(Example(), 1)[1] != Example()[1];
  }
}
