/** Small datatypes and sequence facts shared by the models of the four reconcilers. */
module Common {

  datatype Option<+T> = None | Some(value: T)

  /** A namespaced Kubernetes name. */
  datatype Key = Key(ns: string, name: string)

  /** The elements of `s` other than `x`, in order. */
  function Without<T(==, !new)>(s: seq<T>, x: T): (r: seq<T>)
    ensures x !in r
    ensures forall y :: y in r <==> y in s && y != x
    ensures |r| <= |s|
    ensures x !in s ==> r == s
  {
    if s == [] then [] else
    var rest := Without(s[1..], x);
    if s[0] == x then rest else [s[0]] + rest
  }

  lemma WithoutEmpty<T(!new)>(s: seq<T>, x: T)
    ensures Without(s, x) == [] <==> forall y :: y in s ==> y == x
  {
    if s != [] { assert s[0] in s; WithoutEmpty(s[1..], x); }
  }

  lemma WithoutConcat<T(!new)>(a: seq<T>, b: seq<T>, x: T)
    ensures Without(a + b, x) == Without(a, x) + Without(b, x)
  {
    if a == [] {
      assert a + b == b;
    } else {
      assert (a + b)[1..] == a[1..] + b;
      WithoutConcat(a[1..], b, x);
    }
  }

  /** No two positions of `s` hold the same element. */
  ghost predicate NoDuplicates<T>(s: seq<T>) {
    forall i, j :: 0 <= i < j < |s| ==> s[i] != s[j]
  }

  /** The pigeonhole fact behind length comparisons: a duplicate-free list whose elements all occur
      in `b` is no longer than `b`. */
  lemma {:induction false} NoLongerThan<T(!new)>(a: seq<T>, b: seq<T>)
    requires NoDuplicates(a)
    requires forall x :: x in a ==> x in b
    ensures |a| <= |b|
    decreases |a|
  {
    if a != [] {
      var x := a[0];
      var rest := a[1..];
      assert NoDuplicates(rest);
      forall y | y in rest ensures y in Without(b, x) {
        assert y in a && y != x;
      }
      WithoutShrinks(b, x);
      NoLongerThan(rest, Without(b, x));
    }
  }

  lemma {:induction false} WithoutShrinks<T(!new)>(s: seq<T>, x: T)
    requires x in s
    ensures |Without(s, x)| < |s|
    decreases |s|
  {
    if s[0] != x { WithoutShrinks(s[1..], x); }
  }
}
