/** Lists built up by appending, as the loops over messages and blocks do. */
module Lists {
  function FlatMap<T, U>(f: T -> seq<U>, s: seq<T>): seq<U> {
    if s == [] then [] else FlatMap(f, s[..|s| - 1]) + f(s[|s| - 1])
  }

  lemma FlatMapStep<T, U>(f: T -> seq<U>, s: seq<T>, i: nat)
    requires i < |s|
    ensures FlatMap(f, s[..i + 1]) == FlatMap(f, s[..i]) + f(s[i])
  {
    assert s[..i + 1][..i] == s[..i];
  }

  lemma {:induction false} FlatMapAppend<T, U>(f: T -> seq<U>, a: seq<T>, b: seq<T>)
    ensures FlatMap(f, a + b) == FlatMap(f, a) + FlatMap(f, b)
  {
    if b == [] {
      assert a + b == a;
    } else {
      var n := |b| - 1;
      assert (a + b)[..|a + b| - 1] == a + b[..n];
      FlatMapAppend(f, a, b[..n]);
    }
  }

  lemma FlatMapOne<T, U>(f: T -> seq<U>, x: T)
    ensures FlatMap(f, [x]) == f(x)
  {
    assert [x][..0] == [];
    assert FlatMap(f, [x][..0]) == [];
  }

  lemma FlatMapCons<T, U>(f: T -> seq<U>, s: seq<T>)
    requires s != []
    ensures FlatMap(f, s) == f(s[0]) + FlatMap(f, s[1..])
  {
    assert [s[0]] + s[1..] == s;
    FlatMapAppend(f, [s[0]], s[1..]);
    FlatMapOne(f, s[0]);
  }

  /** Two readings of a list that agree on each element agree on the whole. */
  lemma {:induction false} FlatMapSame<T, U>(f: T -> seq<U>, g: T -> seq<U>, s: seq<T>)
    requires forall x :: x in s ==> f(x) == g(x)
    ensures FlatMap(f, s) == FlatMap(g, s)
  {
    if s != [] {
      FlatMapSame(f, g, s[..|s| - 1]);
    }
  }

  /** Reading what was written: `g` after `f` is `h`, element by element. */
  lemma {:induction false} FlatMapCompose<T, U, V>(f: T -> seq<U>, g: U -> seq<V>, h: T -> seq<V>, s: seq<T>)
    requires forall x :: x in s ==> FlatMap(g, f(x)) == h(x)
    ensures FlatMap(g, FlatMap(f, s)) == FlatMap(h, s)
  {
    if s != [] {
      FlatMapCompose(f, g, h, s[..|s| - 1]);
      FlatMapAppend(g, FlatMap(f, s[..|s| - 1]), f(s[|s| - 1]));
    }
  }

  lemma FlatMapEmpty<T, U>(f: T -> seq<U>)
    ensures FlatMap(f, []) == []
  {
  }

  lemma {:induction false} FlatMapNone<T, U, V>(f: T -> seq<U>, g: U -> seq<V>, s: seq<T>)
    requires forall x :: x in s ==> FlatMap(g, f(x)) == []
    ensures FlatMap(g, FlatMap(f, s)) == []
  {
    if s != [] {
      FlatMapNone(f, g, s[..|s| - 1]);
      FlatMapAppend(g, FlatMap(f, s[..|s| - 1]), f(s[|s| - 1]));
    }
  }

  /** What holds of all that each element gives holds of all that the list gives. */
  lemma {:induction false} FlatMapAll<T, U>(f: T -> seq<U>, p: U -> bool, s: seq<T>)
    requires forall x, y :: x in s && y in f(x) ==> p(y)
    ensures forall y :: y in FlatMap(f, s) ==> p(y)
  {
    if s != [] {
      FlatMapAll(f, p, s[..|s| - 1]);
      assert s[|s| - 1] in s;
    }
  }
}
