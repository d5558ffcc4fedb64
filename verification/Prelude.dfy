/** Vocabulary shared by every module: optional values and a few facts about sequences. */
module Prelude {

  datatype Option<+T> = None | Some(value: T) {
    function GetOr(default: T): T {
      match this
      case Some(v) => v
      case None => default
    }
  }

  function Min(a: int, b: int): int {
    if a <= b then a else b
  }

  function Max(a: int, b: int): int {
    if a <= b then b else a
  }

  /** Concatenates the elements of `xss`. */
  function Flatten<T>(xss: seq<seq<T>>): seq<T> {
    if xss == [] then [] else xss[0] + Flatten(xss[1..])
  }

  lemma {:induction false} FlattenConcat<T>(a: seq<seq<T>>, b: seq<seq<T>>)
    ensures Flatten(a + b) == Flatten(a) + Flatten(b)
  {
    if a == [] {
      assert a + b == b;
    } else {
      assert (a + b)[1..] == a[1..] + b;
      FlattenConcat(a[1..], b);
    }
  }

  /** The elements from part `i` on are a suffix of those from an earlier part `j` on. */
  lemma FlattenSuffix<T>(xss: seq<seq<T>>, j: nat, i: nat)
    requires j <= i <= |xss|
    ensures Flatten(xss[j..]) == Flatten(xss[j..i]) + Flatten(xss[i..])
  {
    assert xss[j..] == xss[j..i] + xss[i..];
    FlattenConcat(xss[j..i], xss[i..]);
  }

  lemma FlattenOne<T>(xs: seq<T>)
    ensures Flatten([xs]) == xs
  {
    assert [xs][1..] == [];
    assert Flatten([xs]) == xs + Flatten([xs][1..]);
  }

  /** The sum of `f` over `xs`. */
  function Sum<T>(f: T -> nat, xs: seq<T>): nat {
    if xs == [] then 0 else f(xs[0]) + Sum(f, xs[1..])
  }

  lemma {:induction false} SumConcat<T>(f: T -> nat, a: seq<T>, b: seq<T>)
    ensures Sum(f, a + b) == Sum(f, a) + Sum(f, b)
  {
    if a == [] {
      assert a + b == b;
    } else {
      assert (a + b)[1..] == a[1..] + b;
      SumConcat(f, a[1..], b);
    }
  }

  /** The sum over a longer suffix is at least the sum over a shorter one. */
  lemma SumSuffix<T>(f: T -> nat, xs: seq<T>, i: nat, j: nat)
    requires i <= j <= |xs|
    ensures Sum(f, xs[j..]) <= Sum(f, xs[i..])
    ensures Sum(f, xs[i..]) == Sum(f, xs[i..j]) + Sum(f, xs[j..])
  {
    assert xs[i..] == xs[i..j] + xs[j..];
    SumConcat(f, xs[i..j], xs[j..]);
  }
}
