/** Generic facts about sequences used by the move enumeration. */
module SeqUtil {

  /** The concatenation of `f(x)` for every `x` of `xs`, in order. */
  function FlatMap<A, B>(f: A -> seq<B>, xs: seq<A>): seq<B> {
    if |xs| == 0 then [] else f(xs[0]) + FlatMap(f, xs[1..])
  }

  lemma {:induction false} FlatMapConcat<A, B>(f: A -> seq<B>, xs: seq<A>, ys: seq<A>)
    ensures FlatMap(f, xs + ys) == FlatMap(f, xs) + FlatMap(f, ys)
  {
    if |xs| > 0 {
      assert (xs + ys)[0] == xs[0];
      assert (xs + ys)[1..] == xs[1..] + ys;
      FlatMapConcat(f, xs[1..], ys);
    } else {
      assert xs + ys == ys;
    }
  }

  lemma FlatMapSingle<A, B>(f: A -> seq<B>, x: A)
    ensures FlatMap(f, [x]) == f(x)
  {
    assert [x][1..] == [];
  }

  lemma FlatMapSnoc<A, B>(f: A -> seq<B>, xs: seq<A>, x: A)
    ensures FlatMap(f, xs + [x]) == FlatMap(f, xs) + f(x)
  {
    FlatMapConcat(f, xs, [x]);
    FlatMapSingle(f, x);
  }

  lemma FlatMapCons<A, B>(f: A -> seq<B>, x: A, xs: seq<A>)
    ensures FlatMap(f, [x] + xs) == f(x) + FlatMap(f, xs)
  {
    assert ([x] + xs)[1..] == xs;
  }

  lemma TakeAll<A>(xs: seq<A>)
    ensures xs[..|xs|] == xs
  {
  }

  lemma TakeSnoc<A>(xs: seq<A>, i: nat)
    requires i < |xs|
    ensures xs[..i + 1] == xs[..i] + [xs[i]]
  {
  }

  /** Extending the outer sequence of a nested concatenation by one element. */
  lemma FlatMap2Snoc<A, B, C>(g: B -> seq<C>, f: A -> seq<B>, xs: seq<A>, x: A)
    ensures FlatMap(g, FlatMap(f, xs + [x])) == FlatMap(g, FlatMap(f, xs)) + FlatMap(g, f(x))
  {
    FlatMapSnoc(f, xs, x);
    FlatMapConcat(g, FlatMap(f, xs), f(x));
  }

  /** Moving the head of the remaining input over to the output. */
  lemma FlatMapShift<A, B>(f: A -> seq<B>, out: seq<B>, x: A, rest: seq<A>, total: seq<B>)
    requires out + FlatMap(f, [x] + rest) == total
    ensures (out + f(x)) + FlatMap(f, rest) == total
  {
    FlatMapCons(f, x, rest);
  }

  lemma AppendNil<A>(xs: seq<A>)
    ensures xs + [] == xs
  {
  }

  lemma FlatMapNil<A, B>(f: A -> seq<B>, out: seq<B>, total: seq<B>)
    requires out + FlatMap(f, []) == total
    ensures out == total
  {
  }

  /** Two maps that agree on every element give the same concatenation. */
  lemma {:induction false} FlatMapPointwise<A, B>(f: A -> seq<B>, g: A -> seq<B>, xs: seq<A>)
    requires forall x :: x in xs ==> f(x) == g(x)
    ensures FlatMap(f, xs) == FlatMap(g, xs)
  {
    if |xs| > 0 {
      assert xs[0] in xs;
      FlatMapPointwise(f, g, xs[1..]);
    }
  }

  /** Every piece appears in the whole. */
  lemma {:induction false} FlatMapMember<A, B>(f: A -> seq<B>, xs: seq<A>, x: A, y: B)
    requires x in xs && y in f(x)
    ensures y in FlatMap(f, xs)
  {
    if xs[0] != x {
      FlatMapMember(f, xs[1..], x, y);
    }
  }

  /** Every element of the whole comes from some piece. */
  lemma {:induction false} FlatMapMemberInv<A, B>(f: A -> seq<B>, xs: seq<A>, y: B)
    requires y in FlatMap(f, xs)
    ensures exists x :: x in xs && y in f(x)
  {
    if y !in f(xs[0]) {
      FlatMapMemberInv(f, xs[1..], y);
      var x :| x in xs[1..] && y in f(x);
      assert x in xs;
    }
  }
}
