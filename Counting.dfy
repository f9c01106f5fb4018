/** How many times a value occurs in a sequence, and how that count behaves under concatenation. */
module Counting {

  /** The number of positions of `s` holding `x`. */
  function Count<T(==)>(s: seq<T>, x: T): (r: nat)
    ensures r == 0 <==> x !in s
    ensures r <= |s|
  {
    if s == [] then 0 else Count(s[..|s| - 1], x) + (if s[|s| - 1] == x then 1 else 0)
  }

  lemma {:induction false} CountAppend<T>(a: seq<T>, b: seq<T>, x: T)
    ensures Count(a + b, x) == Count(a, x) + Count(b, x)
    decreases |b|
  {
    if b == [] {
      assert a + b == a;
    } else {
      assert (a + b)[..|a + b| - 1] == a + b[..|b| - 1];
      CountAppend(a, b[..|b| - 1], x);
    }
  }

  lemma CountSingle<T>(a: T, x: T)
    ensures Count([a], x) == if a == x then 1 else 0
  {
    assert [a][..0] == [];
  }

  lemma CountPair<T>(a: T, b: T, x: T)
    ensures Count([a, b], x) == (if a == x then 1 else 0) + (if b == x then 1 else 0)
  {
    assert [a, b][..1] == [a];
    CountSingle(a, x);
  }
}
