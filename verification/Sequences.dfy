/** Bytes and options, concatenation of sequences of sequences, rearrangements, and binary search. */
module Sequences {

  datatype Option<T> = None | Some(value: T)

  type Byte = x: int | 0 <= x < 256

  function Smaller(a: nat, b: nat): nat { if a <= b then a else b }

  ghost predicate NoDuplicates<T>(xs: seq<T>) {
    forall i, j :: 0 <= i < j < |xs| ==> xs[i] != xs[j]
  }

  function Flatten<T>(xss: seq<seq<T>>): seq<T> {
    if xss == [] then [] else xss[0] + Flatten(xss[1..])
  }

  lemma ConcatAssociative<T>(a: seq<T>, b: seq<T>, c: seq<T>)
    ensures a + b + c == a + (b + c)
  {
  }

  lemma {:induction false} FlattenConcat<T>(xss: seq<seq<T>>, yss: seq<seq<T>>)
    ensures Flatten(xss + yss) == Flatten(xss) + Flatten(yss)
  {
    if xss == [] {
      assert xss + yss == yss;
    } else {
      assert (xss + yss)[1..] == xss[1..] + yss;
      FlattenConcat(xss[1..], yss);
    }
  }

  lemma FlattenAppend<T>(xss: seq<seq<T>>, xs: seq<T>)
    ensures Flatten(xss + [xs]) == Flatten(xss) + xs
  {
    FlattenConcat(xss, [xs]);
    FlattenOne(xs);
  }

  lemma FlattenOne<T>(xs: seq<T>)
    ensures Flatten([xs]) == xs
  {
    assert Flatten([xs]) == xs + Flatten([]);
  }

  lemma FlattenPrefix<T>(xss: seq<seq<T>>, n: nat)
    requires n < |xss|
    ensures Flatten(xss[..n + 1]) == Flatten(xss[..n]) + xss[n]
  {
    assert xss[..n + 1] == xss[..n] + [xss[n]];
    FlattenAppend(xss[..n], xss[n]);
  }

  lemma FlattenSplit<T>(xss: seq<seq<T>>, i: nat)
    requires i < |xss|
    ensures Flatten(xss) == Flatten(xss[..i]) + xss[i] + Flatten(xss[i + 1..])
  {
    assert xss == xss[..i] + xss[i..];
    FlattenConcat(xss[..i], xss[i..]);
    assert xss[i..][1..] == xss[i + 1..];
    assert Flatten(xss[i..]) == xss[i] + Flatten(xss[i + 1..]);
  }

  lemma {:induction false} InFlatten<T>(xss: seq<seq<T>>, x: T)
    ensures x in Flatten(xss) <==> exists i :: 0 <= i < |xss| && x in xss[i]
  {
    if xss != [] {
      InFlatten(xss[1..], x);
      assert xss == [xss[0]] + xss[1..];
      if i :| 0 <= i < |xss| && x in xss[i] {
        assert i > 0 ==> x in xss[1..][i - 1];
      }
    }
  }

  /** The position in a rearrangement ys of the first element of xs. */
  lemma Extract<T>(xs: seq<T>, ys: seq<T>) returns (i: nat)
    requires xs != [] && multiset(xs) == multiset(ys)
    ensures i < |ys| && ys[i] == xs[0] && multiset(xs[1..]) == multiset(ys[..i] + ys[i + 1..])
  {
    assert xs == [xs[0]] + xs[1..];
    assert xs[0] in multiset(ys);
    i :| 0 <= i < |ys| && ys[i] == xs[0];
    assert ys == ys[..i] + [xs[0]] + ys[i + 1..];
    var zs := ys[..i] + ys[i + 1..];
    assert multiset(ys) == multiset{xs[0]} + multiset(zs);
    assert multiset(xs) == multiset{xs[0]} + multiset(xs[1..]);
    assert multiset(zs) == multiset(ys) - multiset{xs[0]};
  }

  /** The numbers below n. */
  function Below(n: nat): (r: set<nat>)
    ensures (forall i: nat :: i in r <==> i < n) && |r| == n
  {
    if n == 0 then {} else Below(n - 1) + {n - 1}
  }

  lemma {:induction false} SubsetSize<T>(xs: set<T>, ys: set<T>)
    requires xs <= ys
    ensures |xs| <= |ys|
    decreases |xs|
  {
    if x :| x in xs {
      SubsetSize(xs - {x}, ys - {x});
    }
  }

  // ---- binary search -------------------------------------------------------------------------

  /** Halves the range until it is empty. */
  function BinarySearch<T>(xs: seq<T>, below: T -> bool, lo: nat, hi: nat): (r: nat)
    requires lo <= hi <= |xs|
    ensures lo <= r <= hi
    decreases hi - lo
  {
    if lo == hi then lo
    else
      var mid := (lo + hi) / 2;
      if below(xs[mid]) then BinarySearch(xs, below, mid + 1, hi) else BinarySearch(xs, below, lo, mid)
  }

  /** The elements that are below come before all others. */
  ghost predicate BelowFirst<T>(xs: seq<T>, below: T -> bool) {
    forall i, j :: 0 <= i < j < |xs| && below(xs[j]) ==> below(xs[i])
  }

  /** In such a sequence the search ends between the two. */
  lemma {:induction false} BinarySearchFinds<T>(xs: seq<T>, below: T -> bool, lo: nat, hi: nat)
    requires lo <= hi <= |xs| && BelowFirst(xs, below)
    requires (forall i :: 0 <= i < lo ==> below(xs[i])) && (forall i :: hi <= i < |xs| ==> !below(xs[i]))
    ensures forall i :: 0 <= i < BinarySearch(xs, below, lo, hi) ==> below(xs[i])
    ensures forall i :: BinarySearch(xs, below, lo, hi) <= i < |xs| ==> !below(xs[i])
    decreases hi - lo
  {
    if lo < hi {
      var mid := (lo + hi) / 2;
      if below(xs[mid]) {
        BinarySearchFinds(xs, below, mid + 1, hi);
      } else {
        BinarySearchFinds(xs, below, lo, mid);
      }
    }
  }

  /** In any sequence at all, the search for more ends later. */
  lemma {:induction false} BinarySearchMonotone<T>(xs: seq<T>, below: T -> bool, more: T -> bool, lo: nat, hi: nat)
    requires lo <= hi <= |xs| && forall x :: below(x) ==> more(x)
    ensures BinarySearch(xs, below, lo, hi) <= BinarySearch(xs, more, lo, hi)
    decreases hi - lo
  {
    if lo < hi {
      var mid := (lo + hi) / 2;
      if below(xs[mid]) {
        BinarySearchMonotone(xs, below, more, mid + 1, hi);
      } else if !more(xs[mid]) {
        BinarySearchMonotone(xs, below, more, lo, mid);
      }
    }
  }
}
