/** Projecting a sequence element by element. */
module Sequences {
  function FlatMap<A, T>(f: A -> seq<T>, xs: seq<A>): seq<T> {
    if xs == [] then [] else f(xs[0]) + FlatMap(f, xs[1..])
  }

  lemma {:induction false} FlatMapConcat<A, T>(f: A -> seq<T>, a: seq<A>, b: seq<A>)
    ensures FlatMap(f, a + b) == FlatMap(f, a) + FlatMap(f, b)
  {
    if a == [] {
      assert a + b == b;
    } else {
      assert (a + b)[1..] == a[1..] + b;
      FlatMapConcat(f, a[1..], b);
      Assoc(f(a[0]), FlatMap(f, a[1..]), FlatMap(f, b));
    }
  }

  lemma {:induction false} Unit<T>(a: seq<T>)
    ensures [] + a == a && a + [] == a
  {
  }

  lemma {:induction false} Assoc<T>(a: seq<T>, b: seq<T>, c: seq<T>)
    ensures a + (b + c) == a + b + c
  {
  }

  lemma {:induction false} FlatMapOne<A, T>(f: A -> seq<T>, x: A)
    ensures FlatMap(f, [x]) == f(x)
  {
    assert [x][1..] == [];
    assert f(x) + [] == f(x);
  }

  lemma {:induction false} FlatMapTwo<A, T>(f: A -> seq<T>, x: A, y: A)
    ensures FlatMap(f, [x, y]) == f(x) + f(y)
  {
    assert [x, y][1..] == [y];
    FlatMapOne(f, y);
  }

  lemma {:induction false} FlatMapNothing<A, T>(f: A -> seq<T>, xs: seq<A>)
    requires forall x :: x in xs ==> f(x) == []
    ensures FlatMap(f, xs) == []
  {
    if xs != [] { FlatMapNothing(f, xs[1..]); }
  }
}
