/** Lists built by appending, one piece per element, as the source's loops build them. */
module Lists {

  /** The pieces of every element, in order. */
  function FlatMap<A, B>(f: A -> seq<B>, s: seq<A>): seq<B> {
    if s == [] then [] else FlatMap(f, s[..|s| - 1]) + f(s[|s| - 1])
  }

  lemma FlatMapStep<A, B>(f: A -> seq<B>, s: seq<A>, i: nat)
    requires i < |s|
    ensures FlatMap(f, s[..i + 1]) == FlatMap(f, s[..i]) + f(s[i])
  {
    assert s[..i + 1][..i] == s[..i];
  }

  lemma FlatMapSnoc<A, B>(f: A -> seq<B>, s: seq<A>, x: A)
    ensures FlatMap(f, s + [x]) == FlatMap(f, s) + f(x)
  {
    assert (s + [x])[..|s|] == s;
  }

  lemma FlatMapOne<A, B>(f: A -> seq<B>, x: A)
    ensures FlatMap(f, [x]) == f(x)
  {
    assert [x][..0] == [];
  }

  lemma {:induction false} FlatMapConcat<A, B>(f: A -> seq<B>, s: seq<A>, t: seq<A>)
    ensures FlatMap(f, s + t) == FlatMap(f, s) + FlatMap(f, t)
  {
    if t == [] {
      FlatMapNone(f);
      assert s + t == s;
    } else {
      hide FlatMap;
      var u, x := t[..|t| - 1], t[|t| - 1];
      FlatMapConcat(f, s, u);
      assert s + t == (s + u) + [x] && t == u + [x];
      FlatMapSnoc(f, s + u, x);
      FlatMapSnoc(f, u, x);
      Regroup(FlatMap(f, s), FlatMap(f, u), f(x));
    }
  }

  lemma FlatMapNone<A, B>(f: A -> seq<B>)
    ensures FlatMap(f, []) == []
  {
  }

  lemma Regroup<T>(a: seq<T>, b: seq<T>, c: seq<T>)
    ensures (a + b) + c == a + (b + c)
  {
  }

  lemma {:induction false} FlatMapNothing<A, B>(f: A -> seq<B>, s: seq<A>)
    requires forall i :: 0 <= i < |s| ==> f(s[i]) == []
    ensures FlatMap(f, s) == []
  {
    if s != [] {
      FlatMapNothing(f, s[..|s| - 1]);
    }
  }

  lemma {:induction false} FlatMapSingles<A, B>(f: A -> seq<B>, s: seq<A>)
    requires forall i :: 0 <= i < |s| ==> |f(s[i])| == 1
    ensures |FlatMap(f, s)| == |s|
    ensures forall i :: 0 <= i < |s| ==> [FlatMap(f, s)[i]] == f(s[i])
  {
    if s != [] {
      FlatMapSingles(f, s[..|s| - 1]);
    }
  }

  /** Taking pieces apart again is taking the elements apart by the composed function. */
  lemma {:induction false} FlatMapCompose<A, B, C>(f: A -> seq<B>, g: B -> seq<C>, h: A -> seq<C>, s: seq<A>)
    requires forall x :: x in s ==> FlatMap(g, f(x)) == h(x)
    ensures FlatMap(g, FlatMap(f, s)) == FlatMap(h, s)
  {
    if s != [] {
      var u, x := s[..|s| - 1], s[|s| - 1];
      FlatMapCompose(f, g, h, u);
      FlatMapConcat(g, FlatMap(f, u), f(x));
    }
  }
}
