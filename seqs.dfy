// Generic sequence helpers shared by several components.

module Seqs {

  function Min(a: int, b: int): int {
    if a <= b then a else b
  }

  /** Concatenation regroups freely. */
  lemma AppendAssoc<T>(a: seq<T>, b: seq<T>, c: seq<T>)
    ensures (a + b) + c == a + (b + c)
  {
  }

  /** A slice of a suffix is a slice of the whole list, shifted by where the suffix starts. */
  lemma SliceOfDrop<T>(s: seq<T>, a: nat, lo: nat, hi: nat)
    requires a <= |s| && lo <= hi <= |s| - a
    ensures s[a..][lo..hi] == s[a + lo..a + hi]
  {
  }

  /** A list is its part before position `i`, the element at `i`, and the rest. */
  lemma SplitAt<T>(s: seq<T>, i: nat)
    requires i < |s|
    ensures s == s[..i] + [s[i]] + s[i + 1..]
  {
  }

  /** A stretch of the left part of a concatenation is a stretch of that part. */
  lemma SliceOfLeft<T>(x: seq<T>, y: seq<T>, a: nat, b: nat)
    requires a <= b <= |x|
    ensures (x + y)[a..b] == x[a..b]
  {
  }

  /** The right part of a concatenation sits after the left part. */
  lemma SliceOfRight<T>(x: seq<T>, y: seq<T>)
    ensures (x + y)[|x|..|x| + |y|] == y
  {
  }

  /** The first k elements of a prefix of length n >= k are the first k elements of the list. */
  lemma PrefixOfPrefix<T>(s: seq<T>, n: nat, k: nat)
    requires k <= n <= |s|
    ensures s[..n][..k] == s[..k]
  {
  }

  /** Concatenates a list of lists, left to right. */
  function Flatten<T>(xss: seq<seq<T>>): seq<T>
  {
    if xss == [] then [] else Flatten(xss[..|xss| - 1]) + xss[|xss| - 1]
  }

  lemma {:induction false} FlattenAppend<T>(xss: seq<seq<T>>, yss: seq<seq<T>>)
    ensures Flatten(xss + yss) == Flatten(xss) + Flatten(yss)
    decreases |yss|
  {
    if yss == [] {
      assert xss + yss == xss;
    } else {
      var zss := xss + yss;
      assert zss[..|zss| - 1] == xss + yss[..|yss| - 1];
      FlattenAppend(xss, yss[..|yss| - 1]);
    }
  }

  /** Flattening takes the first list, then the rest. */
  lemma FlattenHead<T>(xss: seq<seq<T>>)
    requires xss != []
    ensures Flatten(xss) == xss[0] + Flatten(xss[1..])
  {
    assert xss == [xss[0]] + xss[1..];
    FlattenAppend([xss[0]], xss[1..]);
    assert Flatten([xss[0]]) == xss[0] by { assert [xss[0]][..0] == []; }
  }

  /**
   * `xs.filter(y => y !== x)`: every occurrence of `x` goes, every other
   * element stays, in its order.
   */
  function RemoveAll<T(==,!new)>(xs: seq<T>, x: T): (r: seq<T>)
    ensures x !in r
    ensures forall y :: y != x ==> multiset(r)[y] == multiset(xs)[y]
    ensures |r| <= |xs|
  {
    if xs == [] then []
    else
      var rest := RemoveAll(xs[..|xs| - 1], x);
      assert xs == xs[..|xs| - 1] + [xs[|xs| - 1]];
      if xs[|xs| - 1] == x then rest else rest + [xs[|xs| - 1]]
  }

  /** Removing distributes over concatenation, so the kept elements keep their order. */
  lemma {:induction false} RemoveAllAppend<T(!new)>(xs: seq<T>, ys: seq<T>, x: T)
    ensures RemoveAll(xs + ys, x) == RemoveAll(xs, x) + RemoveAll(ys, x)
    decreases |ys|
  {
    if ys == [] {
      assert xs + ys == xs;
    } else {
      var zs, init, last := xs + ys, ys[..|ys| - 1], ys[|ys| - 1];
      var kept: seq<T> := if last == x then [] else [last];
      assert zs[..|zs| - 1] == xs + init && zs[|zs| - 1] == last;
      assert RemoveAll(zs, x) == RemoveAll(xs + init, x) + kept;
      assert RemoveAll(ys, x) == RemoveAll(init, x) + kept;
      RemoveAllAppend(xs, init, x);
      AppendAssoc(RemoveAll(xs, x), RemoveAll(init, x), kept);
    }
  }

  /** Removing an element that does not occur changes nothing. */
  lemma {:induction false} RemoveAllAbsent<T(!new)>(xs: seq<T>, x: T)
    requires x !in xs
    ensures RemoveAll(xs, x) == xs
    decreases |xs|
  {
    if xs != [] {
      assert xs == xs[..|xs| - 1] + [xs[|xs| - 1]];
      RemoveAllAbsent(xs[..|xs| - 1], x);
    }
  }
}
