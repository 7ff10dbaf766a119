/** Filtering and mapping a sequence in one pass, the shape of a loop that
    appends a record for every element that passes a test. */
module Lists {

  // Sequence identities, proved on their own so that proofs about recursive
  // functions over sequences never establish them in a crowded context.

  lemma SplitAt<T>(s: seq<T>, i: nat)
    requires i <= |s|
    ensures s[..i] + s[i..] == s
  {
  }

  lemma TakeOfDrop<T>(s: seq<T>, i: nat, n: nat)
    requires i + n <= |s|
    ensures s[i..][..n] == s[i..i + n]
  {
  }

  lemma DropDrop<T>(s: seq<T>, i: nat, n: nat)
    requires i + n <= |s|
    ensures s[i..][n..] == s[i + n..]
  {
  }

  lemma DropOfAppend<T>(a: seq<T>, b: seq<T>)
    requires |a| > 0
    ensures (a + b)[1..] == a[1..] + b && (a + b)[0] == a[0]
  {
  }

  lemma ConsAppend<T>(a: seq<T>, x: seq<T>)
    requires |a| > 0
    ensures [a[0]] + (a[1..] + x) == a + x
  {
  }

  lemma EmptyAppend<T>(a: seq<T>, b: seq<T>)
    requires a == []
    ensures a + b == b && b + a == b
  {
  }

  lemma AppendAssoc<T>(a: seq<T>, b: seq<T>, c: seq<T>)
    ensures a + (b + c) == a + b + c
  {
  }

  lemma TakeSnoc<T>(s: seq<T>, i: nat)
    requires i < |s|
    ensures s[..i + 1] == s[..i] + [s[i]]
  {
  }

  lemma AppendParts<T>(a: seq<T>, b: seq<T>)
    ensures (a + b)[..|a|] == a && (a + b)[|a|..] == b
  {
  }

  lemma TakeAll<T>(s: seq<T>)
    ensures s[..|s|] == s
  {
  }

  /** The image of every element, in order. */
  function Map<T, U>(xs: seq<T>, f: T -> U): (ys: seq<U>)
    ensures |ys| == |xs|
    ensures forall i :: 0 <= i < |xs| ==> ys[i] == f(xs[i])
  {
    seq(|xs|, i requires 0 <= i < |xs| => f(xs[i]))
  }

  lemma MapSnoc<T, U>(xs: seq<T>, i: nat, f: T -> U)
    requires i < |xs|
    ensures Map(xs[..i + 1], f) == Map(xs[..i], f) + [f(xs[i])]
  {
  }

  /** Number of elements that satisfy `p`. */
  function Count<T>(xs: seq<T>, p: T -> bool): (n: nat)
    ensures n <= |xs|
  {
    if xs == [] then 0 else (if p(xs[0]) then 1 else 0) + Count(xs[1..], p)
  }

  lemma {:induction false} CountAppend<T>(a: seq<T>, b: seq<T>, p: T -> bool)
    ensures Count(a + b, p) == Count(a, p) + Count(b, p)
  {
    if a == [] {
      EmptyAppend(a, b);
    } else {
      DropOfAppend(a, b);
      CountAppend(a[1..], b, p);
    }
  }

  lemma CountSingle<T>(x: T, p: T -> bool)
    ensures Count([x], p) == if p(x) then 1 else 0
  {
    assert [x][1..] == [];
  }

  function FilterMap<T, U>(xs: seq<T>, keep: T -> bool, f: T -> U): (ys: seq<U>)
    ensures |ys| <= |xs|
  {
    if xs == [] then []
    else (if keep(xs[0]) then [f(xs[0])] else []) + FilterMap(xs[1..], keep, f)
  }

  /** FilterMap distributes over concatenation, so it preserves order. */
  lemma {:induction false} FilterMapAppend<T, U>(a: seq<T>, b: seq<T>, keep: T -> bool, f: T -> U)
    ensures FilterMap(a + b, keep, f) == FilterMap(a, keep, f) + FilterMap(b, keep, f)
  {
    if a == [] {
      EmptyAppend(a, b);
      EmptyAppend(FilterMap(a, keep, f), FilterMap(b, keep, f));
    } else {
      DropOfAppend(a, b);
      FilterMapAppend(a[1..], b, keep, f);
      AppendAssoc(if keep(a[0]) then [f(a[0])] else [], FilterMap(a[1..], keep, f), FilterMap(b, keep, f));
    }
  }

  lemma FilterMapSingle<T, U>(x: T, keep: T -> bool, f: T -> U)
    ensures FilterMap([x], keep, f) == if keep(x) then [f(x)] else []
  {
    assert [x][1..] == [];
  }

  function Kept<T, U>(x: T, keep: T -> bool, f: T -> U): seq<U> {
    if keep(x) then [f(x)] else []
  }

  /** FilterMap of three elements followed by a tail. */
  lemma FilterMapThree<T, U>(x: T, y: T, z: T, tail: seq<T>, keep: T -> bool, f: T -> U)
    ensures FilterMap([x] + [y] + [z] + tail, keep, f)
            == Kept(x, keep, f) + Kept(y, keep, f) + Kept(z, keep, f) + FilterMap(tail, keep, f)
  {
    FilterMapAppend([x] + [y] + [z], tail, keep, f);
    FilterMapAppend([x] + [y], [z], keep, f);
    FilterMapAppend([x], [y], keep, f);
    FilterMapSingle(x, keep, f);
    FilterMapSingle(y, keep, f);
    FilterMapSingle(z, keep, f);
  }

  /** Count of three elements followed by a tail. */
  lemma CountThree<T>(x: T, y: T, z: T, tail: seq<T>, p: T -> bool)
    ensures Count([x] + [y] + [z] + tail, p)
            == (if p(x) then 1 else 0) + (if p(y) then 1 else 0) + (if p(z) then 1 else 0) + Count(tail, p)
  {
    CountAppend([x] + [y] + [z], tail, p);
    CountAppend([x] + [y], [z], p);
    CountAppend([x], [y], p);
    CountSingle(x, p);
    CountSingle(y, p);
    CountSingle(z, p);
  }

  /** The output for a kept element `xs[i]` sits right after the output of
      the elements before it; a dropped element contributes nothing. */
  lemma FilterMapAt<T, U>(xs: seq<T>, i: nat, keep: T -> bool, f: T -> U)
    requires i < |xs|
    ensures FilterMap(xs, keep, f) ==
            FilterMap(xs[..i], keep, f) + (if keep(xs[i]) then [f(xs[i])] else [])
            + FilterMap(xs[i + 1..], keep, f)
  {
    var rest := [xs[i]] + xs[i + 1..];
    SplitAt(xs, i);
    assert xs[i..] == rest;
    FilterMapAppend(xs[..i], rest, keep, f);
    DropOfAppend([xs[i]], xs[i + 1..]);
    assert [xs[i]][1..] == [];
    EmptyAppend([xs[i]][1..], xs[i + 1..]);
    AppendAssoc(FilterMap(xs[..i], keep, f), if keep(xs[i]) then [f(xs[i])] else [], FilterMap(xs[i + 1..], keep, f));
  }

  /** An output element is the image of a kept input element, and every kept
      input element has its image in the output. */
  lemma {:induction false} FilterMapMembership<T, U>(xs: seq<T>, keep: T -> bool, f: T -> U, y: U)
    ensures y in FilterMap(xs, keep, f) <==>
            exists i :: 0 <= i < |xs| && keep(xs[i]) && f(xs[i]) == y
  {
    if xs != [] {
      FilterMapMembership(xs[1..], keep, f, y);
      if exists i :: 0 <= i < |xs| && keep(xs[i]) && f(xs[i]) == y {
        var i :| 0 <= i < |xs| && keep(xs[i]) && f(xs[i]) == y;
        if i > 0 {
          assert xs[1..][i - 1] == xs[i];
        }
      }
      if y in FilterMap(xs[1..], keep, f) {
        var j :| 0 <= j < |xs[1..]| && keep(xs[1..][j]) && f(xs[1..][j]) == y;
        assert xs[j + 1] == xs[1..][j];
      }
    }
  }
}
