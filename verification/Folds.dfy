/** Running a list of steps, mapping over lists and comparing maps, with nothing assumed
    about what is in them. */
module Folds {

  function Fold<Q, E>(step: (Q, E) -> Q, q: Q, es: seq<E>): Q {
    if es == [] then q else step(Fold(step, q, es[..|es| - 1]), es[|es| - 1])
  }

  lemma {:induction false} FoldConcat<Q, E>(step: (Q, E) -> Q, q: Q, a: seq<E>, b: seq<E>)
    ensures Fold(step, q, a + b) == Fold(step, Fold(step, q, a), b)
  {
    if b == [] {
      assert a + b == a;
    } else {
      var n := |b| - 1;
      assert (a + b)[..|a + b| - 1] == a + b[..n];
      FoldConcat(step, q, a, b[..n]);
    }
  }

  lemma FoldCons<Q, E>(step: (Q, E) -> Q, q: Q, es: seq<E>)
    requires es != []
    ensures Fold(step, q, es) == Fold(step, step(q, es[0]), es[1..])
  {
    var one := [es[0]];
    assert es == one + es[1..];
    FoldConcat(step, q, one, es[1..]);
    assert one[..0] == [];
    assert Fold(step, q, one) == step(Fold(step, q, []), es[0]);
  }

  lemma SameMaps<K, V>(a: map<K, V>, b: map<K, V>)
    requires a.Keys == b.Keys && forall k <- a :: a[k] == b[k]
    ensures a == b
  {
  }

  function MapSeq<A, B>(f: A -> B, s: seq<A>): (r: seq<B>)
    ensures |r| == |s| && forall i :: 0 <= i < |s| ==> r[i] == f(s[i])
  {
    seq(|s|, i requires 0 <= i < |s| => f(s[i]))
  }

  lemma MapSeqConcat<A, B>(f: A -> B, s: seq<A>, t: seq<A>)
    ensures MapSeq(f, s + t) == MapSeq(f, s) + MapSeq(f, t)
  {
  }
}
