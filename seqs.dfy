/** First-appearance de-duplication: the key order of a Python dict filled in a
    loop, where a key is inserted the first time it is seen and never moves. */
module Seqs {

  predicate NoDup(xs: seq<string>)
  {
    forall i, j :: 0 <= i < j < |xs| ==> xs[i] != xs[j]
  }

  /** Index of the first occurrence of `x` in `xs`. */
  function IndexOf(xs: seq<string>, x: string): (i: nat)
    requires x in xs
    ensures i < |xs| && xs[i] == x
    ensures forall j :: 0 <= j < i ==> xs[j] != x
  {
    if xs[0] == x then 0 else 1 + IndexOf(xs[1..], x)
  }

  /** The distinct elements of `xs`, each at the place of its first occurrence. */
  function Distinct(xs: seq<string>): (d: seq<string>)
    ensures NoDup(d)
    ensures forall x :: x in d <==> x in xs
    ensures |d| <= |xs|
  {
    if xs == [] then []
    else
      var front := Distinct(xs[..|xs| - 1]);
      var x := xs[|xs| - 1];
      assert forall y :: y in xs <==> y in xs[..|xs| - 1] || y == x;
      if x in front then front else front + [x]
  }

  /** Keys come out in the order in which they first appear in the input. */
  lemma {:induction false} DistinctFirstAppearance(xs: seq<string>, i: nat, j: nat)
    requires i < j < |Distinct(xs)|
    ensures IndexOf(xs, Distinct(xs)[i]) < IndexOf(xs, Distinct(xs)[j])
  {
    var front := xs[..|xs| - 1];
    var x := xs[|xs| - 1];
    var d := Distinct(front);
    IndexOfPrefix(xs, front, Distinct(xs)[i]);
    if x in d {
      DistinctFirstAppearance(front, i, j);
      IndexOfPrefix(xs, front, Distinct(xs)[j]);
    } else if j < |d| {
      DistinctFirstAppearance(front, i, j);
      IndexOfPrefix(xs, front, Distinct(xs)[j]);
    } else {
      // the new key x has no earlier occurrence, so its first index is the last one
      assert Distinct(xs)[j] == x;
      assert x !in front;
      IndexOfLast(xs, x);
    }
  }

  lemma IndexOfPrefix(xs: seq<string>, front: seq<string>, y: string)
    requires |front| <= |xs| && front == xs[..|front|] && y in front
    ensures IndexOf(xs, y) == IndexOf(front, y)
  {
    var i := IndexOf(front, y);
    assert xs[i] == y;
    var k := IndexOf(xs, y);
    assert forall j :: 0 <= j < k ==> xs[j] != y;
  }

  lemma IndexOfLast(xs: seq<string>, x: string)
    requires |xs| > 0 && xs[|xs| - 1] == x && x !in xs[..|xs| - 1]
    ensures IndexOf(xs, x) == |xs| - 1
  {
    assert forall k :: 0 <= k < |xs| - 1 ==> xs[k] == xs[..|xs| - 1][k];
  }

  /** A duplicate-free sequence has as many elements as its set. */
  lemma {:induction false} NoDupCard(xs: seq<string>)
    requires NoDup(xs)
    ensures |set x | x in xs| == |xs|
  {
    if xs != [] {
      var front := xs[..|xs| - 1];
      var x := xs[|xs| - 1];
      NoDupCard(front);
      assert forall k :: 0 <= k < |front| ==> front[k] == xs[k];
      assert (set y | y in xs) == (set y | y in front) + {x};
    }
  }

  /** One more element of a prefix. */
  lemma PrefixSnoc<T>(s: seq<T>, i: nat)
    requires i < |s|
    ensures s[..i + 1] == s[..i] + [s[i]]
  {
  }

  /** Appending is associative. */
  lemma AppendAssoc<T>(a: seq<T>, b: seq<T>, c: seq<T>)
    ensures (a + b) + c == a + (b + c)
  {
  }
}
