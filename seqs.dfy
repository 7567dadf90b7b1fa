// Iteration shapes the goals share: the arch-major cross product of architectures and
// cultures, and the order a HashSet happens to be iterated in.
module Seqs {

  /** No element occurs twice. */
  predicate Distinct<T(==)>(xs: seq<T>)
  {
    forall i, j :: 0 <= i < j < |xs| ==> xs[i] != xs[j]
  }

  /** `xs` is one iteration order of the set `s`: each element exactly once. */
  predicate Lists<T(==)>(xs: seq<T>, s: set<T>)
  {
    Distinct(xs) && Elements(xs) == s
  }

  function Elements<T(==)>(xs: seq<T>): set<T>
  {
    set i | 0 <= i < |xs| :: xs[i]
  }

  /** Adding a list's elements to a set one by one adds the elements of each part in turn. */
  lemma ElementsConcat<T>(a: seq<T>, b: seq<T>)
    ensures Elements(a + b) == Elements(a) + Elements(b)
  {
    assert forall i :: 0 <= i < |a| ==> (a + b)[i] == a[i];
    assert forall i :: 0 <= i < |b| ==> (a + b)[|a| + i] == b[i];
    forall x | x in Elements(a + b)
      ensures x in Elements(a) + Elements(b)
    {
      var i :| 0 <= i < |a + b| && (a + b)[i] == x;
      if i >= |a| {
        assert b[i - |a|] == x;
      }
    }
  }

  lemma ElementsSingle<T>(x: T)
    ensures Elements([x]) == {x}
  {
    assert [x][0] == x;
  }

  /** Appending a second part and then a third is appending the two at once. */
  lemma AppendAssoc<T>(a: seq<T>, b: seq<T>, c: seq<T>)
    ensures a + b + c == a + (b + c)
  {
  }

  /** Appending four parts one by one is appending them all at once. */
  lemma AppendFour<T>(s: seq<T>, a: seq<T>, b: seq<T>, c: seq<T>, d: seq<T>)
    ensures s + a + b + c + d == s + (a + b + c + d)
  {
  }

  /** Where the first, second and last of four concatenated parts sit. */
  lemma ConcatParts<T>(a: seq<T>, b: seq<T>, c: seq<T>, d: seq<T>)
    ensures var s := a + b + c + d;
      && s[..|a|] == a && (forall i :: 0 <= i < |a| ==> s[i] == a[i])
      && s[|a|..|a| + |b|] == b
      && s[|s| - |d|..] == d
  {
    var s := a + b + c + d;
    assert s == (a + b) + (c + d);
    assert (a + b)[|a|..] == b;
  }

  /** A slice of the middle part of a + b + c is the same slice of b. */
  lemma MiddleSlice<T>(a: seq<T>, b: seq<T>, c: seq<T>, lo: nat, hi: nat)
    requires lo <= hi <= |b|
    ensures (a + b + c)[|a| + lo..|a| + hi] == b[lo..hi]
  {
    assert a + b + c == a + (b + c);
    assert (a + (b + c))[|a|..] == b + c;
  }

  /** A slice within the first part of a + b is the same slice of a. */
  lemma HeadSlice<T>(a: seq<T>, b: seq<T>, lo: nat, hi: nat)
    requires lo <= hi <= |a|
    ensures (a + b)[lo..hi] == a[lo..hi]
  {
  }

  /** Where the first four and the last of six concatenated parts sit. */
  lemma SixParts<T>(a: seq<T>, b: seq<T>, c: seq<T>, d: seq<T>, e: seq<T>, f: seq<T>)
    ensures var s := a + b + c + d + e + f;
      && |s| == |a| + |b| + |c| + |d| + |e| + |f|
      && s[..|a|] == a
      && s[|a|..|a| + |b|] == b
      && s[|a| + |b|..|a| + |b| + |c|] == c
      && s[|a| + |b| + |c|..|a| + |b| + |c| + |d|] == d
      && s[|s| - |f|..] == f
  {
    var head := a + b + c + d;
    var s := a + b + c + d + e + f;
    assert s == head + (e + f);
    ConcatParts(a, b, c, d);
    MiddleSlice(a + b, c, d, 0, |c|);
    HeadSlice(head, e + f, 0, |a|);
    HeadSlice(head, e + f, |a|, |a| + |b|);
    HeadSlice(head, e + f, |a| + |b|, |a| + |b| + |c|);
    HeadSlice(head, e + f, |head| - |d|, |head|);
  }

  /** Five concatenated parts with the third and fourth grouped. */
  lemma GroupFourth<T>(a: seq<T>, b: seq<T>, c: seq<T>, d: seq<T>, e: seq<T>)
    ensures a + b + c + d + e == a + b + (c + d) + e
  {
  }

  /** Six concatenated parts with the middle three grouped. */
  lemma Regroup<T>(a: seq<T>, b: seq<T>, c: seq<T>, d: seq<T>, e: seq<T>, f: seq<T>)
    ensures a + b + c + d + e + f == a + b + (c + d + e) + f
  {
  }

  /** Where the three parts of head + body + tail sit, with a slice of the body. */
  lemma ThreeParts<T>(head: seq<T>, body: seq<T>, tail: seq<T>, lo: nat, hi: nat)
    requires lo <= hi <= |body|
    ensures var s := head + body + tail;
      && |s| == |head| + |body| + |tail|
      && s[..|head|] == head
      && s[|head| + lo..|head| + hi] == body[lo..hi]
      && s[|s| - |tail|..] == tail
  {
    MiddleSlice(head, body, tail, lo, hi);
    ConcatParts(head, body, [], tail);
    assert head + body + [] + tail == head + body + tail;
  }

  /** Every element of a slice of s is an element of s. */
  lemma SliceMembers<T>(s: seq<T>, lo: nat, xs: seq<T>)
    requires lo + |xs| <= |s| && s[lo..lo + |xs|] == xs
    ensures forall x :: x in xs ==> x in s
  {
    forall x | x in xs
      ensures x in s
    {
      var k :| 0 <= k < |xs| && xs[k] == x;
      assert s[lo + k] == x;
    }
  }

  /** A listing of a set has one entry per member. */
  lemma {:induction false} ListsCard<T>(xs: seq<T>, s: set<T>)
    requires Lists(xs, s)
    ensures |xs| == |s|
    decreases |xs|
  {
    if |xs| > 0 {
      var n := |xs| - 1;
      var p := xs[..n];
      assert xs == p + [xs[n]];
      ElementsConcat(p, [xs[n]]);
      ElementsSingle(xs[n]);
      assert xs[n] !in Elements(p);
      assert forall i, j :: 0 <= i < j < |p| ==> p[i] == xs[i] && p[j] == xs[j];
      ListsCard(p, Elements(p));
    }
  }

  /** Appending an element not yet listed keeps a list duplicate free and adds it to the elements. */
  lemma DistinctSnoc<T>(xs: seq<T>, x: T)
    requires Distinct(xs) && x !in Elements(xs)
    ensures Distinct(xs + [x]) && Elements(xs + [x]) == Elements(xs) + {x}
  {
    ElementsConcat(xs, [x]);
    ElementsSingle(x);
    var ys := xs + [x];
    forall i, j | 0 <= i < j < |ys|
      ensures ys[i] != ys[j]
    {
      assert ys[i] == xs[i];
      if j == |xs| {
        assert xs[i] in Elements(xs);
      }
    }
  }

  /** Iterating a HashSet: some order, each element once; which order is not specified. */
  method Enumerate<T(==)>(s: set<T>) returns (xs: seq<T>)
    ensures Lists(xs, s)
    ensures |xs| == |s|
  {
    xs := [];
    var rest := s;
    while rest != {}
      invariant Distinct(xs)
      invariant Elements(xs) == s - rest
      invariant rest <= s
      invariant |xs| + |rest| == |s|
      decreases |rest|
    {
      var x :| x in rest;
      DistinctSnoc(xs, x);
      xs := xs + [x];
      rest := rest - {x};
    }
  }

  /** Every pairing of one `x` with one `y`, all of the first `x`'s pairs first. */
  function Cross<X, Y>(xs: seq<X>, ys: seq<Y>): (r: seq<(X, Y)>)
    ensures |r| == |xs| * |ys|
  {
    if |xs| == 0 then [] else Cross(xs[..|xs| - 1], ys) + Row(xs[|xs| - 1], ys)
  }

  function Row<X, Y>(x: X, ys: seq<Y>): (r: seq<(X, Y)>)
    ensures |r| == |ys|
    ensures forall j :: 0 <= j < |ys| ==> r[j] == (x, ys[j])
  {
    seq(|ys|, j requires 0 <= j < |ys| => (x, ys[j]))
  }

  lemma CrossGrows<X, Y>(xs: seq<X>, ys: seq<Y>, i: nat)
    requires i < |xs|
    ensures Cross(xs[..i + 1], ys) == Cross(xs[..i], ys) + Row(xs[i], ys)
  {
    assert xs[..i + 1][..i] == xs[..i];
  }

  lemma RowGrows<X, Y>(x: X, ys: seq<Y>, j: nat)
    requires j < |ys|
    ensures Row(x, ys[..j + 1]) == Row(x, ys[..j]) + [(x, ys[j])]
  {
  }

  lemma MulStep(i: nat, n: nat, m: nat, j: nat)
    requires i < n && j < m
    ensures i * m + j < n * m
    ensures i * m + j >= i * m
  {
    assert i * m + j < (i + 1) * m;
    assert (i + 1) * m <= n * m;
  }

  /** The pair at position i * |ys| + j is (xs[i], ys[j]): arch-major order. */
  lemma {:induction false} CrossAt<X, Y>(xs: seq<X>, ys: seq<Y>, i: nat, j: nat)
    requires i < |xs| && j < |ys|
    ensures i * |ys| + j < |Cross(xs, ys)|
    ensures Cross(xs, ys)[i * |ys| + j] == (xs[i], ys[j])
    decreases |xs|
  {
    var n := |xs|;
    var prefix := xs[..n - 1];
    MulStep(i, n, |ys|, j);
    if i < n - 1 {
      CrossAt(prefix, ys, i, j);
      MulStep(i, n - 1, |ys|, j);
    } else {
      assert |Cross(prefix, ys)| == i * |ys|;
    }
  }

  /** A pair is in the cross product exactly when both parts are. */
  lemma {:induction false} CrossMembers<X, Y>(xs: seq<X>, ys: seq<Y>, x: X, y: Y)
    ensures (x, y) in Cross(xs, ys) <==> x in xs && y in ys
    decreases |xs|
  {
    if |xs| > 0 {
      var prefix := xs[..|xs| - 1];
      CrossMembers(prefix, ys, x, y);
      assert xs == prefix + [xs[|xs| - 1]];
      if x in xs && y in ys && x !in prefix {
        var j :| 0 <= j < |ys| && ys[j] == y;
        assert Row(xs[|xs| - 1], ys)[j] == (x, y);
      }
    }
  }

  /** The elements that satisfy `keep`, in their original order. */
  function Filter<T>(xs: seq<T>, keep: T -> bool): (r: seq<T>)
    ensures |r| <= |xs|
  {
    if |xs| == 0 then []
    else
      (if keep(xs[0]) then [xs[0]] else []) + Filter(xs[1..], keep)
  }

  /** Filter keeps exactly the elements the predicate accepts. */
  lemma {:induction false} FilterMembers<T>(xs: seq<T>, keep: T -> bool, x: T)
    ensures x in Filter(xs, keep) <==> x in xs && keep(x)
  {
    if |xs| > 0 {
      FilterMembers(xs[1..], keep, x);
      assert x in xs <==> x == xs[0] || x in xs[1..];
    }
  }

  /** One group of results per element, in order: a loop that appends f(x) for each x. */
  function FlatMap<X, Y>(xs: seq<X>, f: X -> seq<Y>): seq<Y>
  {
    if |xs| == 0 then [] else FlatMap(xs[..|xs| - 1], f) + f(xs[|xs| - 1])
  }

  lemma FlatMapGrows<X, Y>(xs: seq<X>, f: X -> seq<Y>, i: nat)
    requires i < |xs|
    ensures FlatMap(xs[..i + 1], f) == FlatMap(xs[..i], f) + f(xs[i])
  {
    assert xs[..i + 1][..i] == xs[..i];
  }

  /** One more element at the end adds its group at the end. */
  lemma FlatMapSnoc<X, Y>(xs: seq<X>, x: X, f: X -> seq<Y>)
    ensures FlatMap(xs + [x], f) == FlatMap(xs, f) + f(x)
  {
    assert (xs + [x])[..|xs|] == xs;
  }

  /** Adding each group's elements to a set in turn: the set of the first i + 1 groups. */
  lemma FlatMapOne<X, Y>(x: X, f: X -> seq<Y>)
    ensures FlatMap([x], f) == f(x)
  {
    FlatMapSnoc([], x, f);
    assert [] + [x] == [x];
  }

  /** A flat map starts with the first item's first output. */
  lemma FlatMapFirst<X, Y>(xs: seq<X>, f: X -> seq<Y>)
    requires |xs| > 0 && |f(xs[0])| > 0
    ensures |FlatMap(xs, f)| > 0 && FlatMap(xs, f)[0] == f(xs[0])[0]
  {
    FlatMapConcat([xs[0]], xs[1..], f);
    assert xs == [xs[0]] + xs[1..];
    FlatMapOne(xs[0], f);
  }

  lemma FlatMapElementsGrows<X, Y>(xs: seq<X>, f: X -> seq<Y>, i: nat)
    requires i < |xs|
    ensures Elements(FlatMap(xs[..i + 1], f)) == Elements(FlatMap(xs[..i], f)) + Elements(f(xs[i]))
  {
    FlatMapGrows(xs, f, i);
    ElementsConcat(FlatMap(xs[..i], f), f(xs[i]));
  }

  lemma {:induction false} FlatMapConcat<X, Y>(a: seq<X>, b: seq<X>, f: X -> seq<Y>)
    ensures FlatMap(a + b, f) == FlatMap(a, f) + FlatMap(b, f)
    decreases |b|
  {
    if |b| == 0 {
      assert a + b == a;
    } else {
      var b' := b[..|b| - 1];
      assert (a + b)[..|a + b| - 1] == a + b';
      FlatMapConcat(a, b', f);
    }
  }

  /** An element is produced exactly when some input element's group holds it. */
  lemma {:induction false} FlatMapMembers<X, Y>(xs: seq<X>, f: X -> seq<Y>, y: Y)
    ensures y in FlatMap(xs, f) <==> exists i :: 0 <= i < |xs| && y in f(xs[i])
    decreases |xs|
  {
    if |xs| > 0 {
      var n := |xs| - 1;
      FlatMapMembers(xs[..n], f, y);
      if y in FlatMap(xs, f) && y !in FlatMap(xs[..n], f) {
        assert y in f(xs[n]);
      }
      if exists i :: 0 <= i < |xs| && y in f(xs[i]) {
        var i :| 0 <= i < |xs| && y in f(xs[i]);
        if i < n {
          assert xs[..n][i] == xs[i];
        }
      }
    }
  }

  /** Two loop bodies that append the same for every input append the same overall. */
  lemma {:induction false} FlatMapSame<X, Y>(xs: seq<X>, f: X -> seq<Y>, g: X -> seq<Y>)
    requires forall i :: 0 <= i < |xs| ==> f(xs[i]) == g(xs[i])
    ensures FlatMap(xs, f) == FlatMap(xs, g)
    decreases |xs|
  {
    if |xs| > 0 {
      var n := |xs| - 1;
      assert forall i :: 0 <= i < n ==> xs[..n][i] == xs[i];
      FlatMapSame(xs[..n], f, g);
    }
  }

  /** When every group has one element, the result is the groups' elements, one per input. */
  lemma {:induction false} FlatMapSingles<X, Y>(xs: seq<X>, f: X -> seq<Y>)
    requires forall i :: 0 <= i < |xs| ==> |f(xs[i])| == 1
    ensures |FlatMap(xs, f)| == |xs|
    ensures forall i :: 0 <= i < |xs| ==> FlatMap(xs, f)[i] == f(xs[i])[0]
    decreases |xs|
  {
    if |xs| > 0 {
      var n := |xs| - 1;
      assert forall i :: 0 <= i < n ==> xs[..n][i] == xs[i];
      FlatMapSingles(xs[..n], f);
    }
  }

  /**
   * The iteration order of a HashSet the program builds itself: some listing of each set,
   * fixed but not specified.
   */
  ghost predicate IsIterationOrder<T(!new)>(order: set<T> -> seq<T>)
  {
    forall s :: Lists(order(s), s)
  }

  lemma IterationListed<T(!new)>(order: set<T> -> seq<T>, s: set<T>)
    requires IsIterationOrder(order)
    ensures Lists(order(s), s)
  {
  }

  /** LinkedHashSet.add: appended when new, ignored when present. */
  function Insert<T(==)>(xs: seq<T>, x: T): (r: seq<T>)
    ensures Distinct(xs) ==> Distinct(r)
    ensures Elements(r) == Elements(xs) + {x}
    ensures x in xs ==> r == xs
    ensures x !in xs ==> r == xs + [x]
  {
    if x in xs then xs
    else
      assert forall i :: 0 <= i < |xs| ==> (xs + [x])[i] == xs[i] && xs[i] != x;
      assert (xs + [x])[|xs|] == x;
      xs + [x]
  }


  // ---- one group per (x, y) pair, in arch-major order ----

  /** The nested loop over xs then ys, stopped after j elements of row i. */
  lemma CrossStep<X, Y, Z>(xs: seq<X>, ys: seq<Y>, f: ((X, Y)) -> seq<Z>, i: nat, j: nat)
    requires i < |xs| && j < |ys|
    ensures FlatMap(Cross(xs[..i], ys) + Row(xs[i], ys[..j + 1]), f)
      == FlatMap(Cross(xs[..i], ys) + Row(xs[i], ys[..j]), f) + f((xs[i], ys[j]))
  {
    var prefix := Cross(xs[..i], ys) + Row(xs[i], ys[..j]);
    var v := (xs[i], ys[j]);
    RowGrows(xs[i], ys, j);
    assert Cross(xs[..i], ys) + Row(xs[i], ys[..j + 1]) == prefix + [v];
    assert (prefix + [v])[..|prefix|] == prefix;
  }

  /** The end of a row is the start of the next one. */
  lemma CrossRowDone<X, Y, Z>(xs: seq<X>, ys: seq<Y>, f: ((X, Y)) -> seq<Z>, i: nat)
    requires i < |xs|
    ensures FlatMap(Cross(xs[..i + 1], ys), f) == FlatMap(Cross(xs[..i], ys) + Row(xs[i], ys[..|ys|]), f)
  {
    CrossGrows(xs, ys, i);
    assert ys[..|ys|] == ys;
  }

  /** A loop body that contributes exactly one element per input. */
  function Singles<X, Y>(g: X -> Y): X -> seq<Y>
  {
    (x: X) => [g(x)]
  }

  /**
   * A nested loop contributing one element per pair: one element for each pair, and
   * exactly the elements of the pairs.
   */
  /** Mapping each element to one value: entry k is the value of element k. */
  lemma SinglesAt<X, Y>(xs: seq<X>, g: X -> Y, k: nat)
    requires k < |xs|
    ensures |FlatMap(xs, Singles(g))| == |xs|
    ensures FlatMap(xs, Singles(g))[k] == g(xs[k])
  {
    var f := Singles(g);
    assert forall i :: 0 <= i < |xs| ==> f(xs[i]) == [g(xs[i])];
    FlatMapSingles(xs, f);
  }

  lemma {:induction false} CrossSingles<X, Y, Z>(xs: seq<X>, ys: seq<Y>, g: ((X, Y)) -> Z, z: Z)
    ensures |FlatMap(Cross(xs, ys), Singles(g))| == |xs| * |ys|
    ensures z in FlatMap(Cross(xs, ys), Singles(g)) <==> exists x, y :: x in xs && y in ys && z == g((x, y))
  {
    var pairs := Cross(xs, ys);
    var f := Singles(g);
    assert forall i :: 0 <= i < |pairs| ==> f(pairs[i]) == [g(pairs[i])];
    FlatMapSingles(pairs, f);
    FlatMapMembers(pairs, f, z);
    if z in FlatMap(pairs, f) {
      var i :| 0 <= i < |pairs| && z in f(pairs[i]);
      var v := pairs[i];
      assert v in pairs;
      CrossMembers(xs, ys, v.0, v.1);
      assert z == g((v.0, v.1));
    }
    if exists x, y :: x in xs && y in ys && z == g((x, y)) {
      var x, y :| x in xs && y in ys && z == g((x, y));
      CrossMembers(xs, ys, x, y);
      var i :| 0 <= i < |pairs| && pairs[i] == (x, y);
      assert z in f(pairs[i]);
    }
  }

  /** The nested loop over xs then ys, one more pair of row i done. */
  lemma CrossNext<X, Y>(xs: seq<X>, ys: seq<Y>, i: nat, j: nat)
    requires i < |xs| && j < |ys|
    ensures Cross(xs[..i], ys) + Row(xs[i], ys[..j + 1]) == (Cross(xs[..i], ys) + Row(xs[i], ys[..j])) + [(xs[i], ys[j])]
  {
    RowGrows(xs[i], ys, j);
  }

  /** A row just started adds nothing, and a finished row completes the next prefix of xs. */
  lemma CrossRowEnds<X, Y>(xs: seq<X>, ys: seq<Y>, i: nat)
    requires i < |xs|
    ensures Cross(xs[..i], ys) + Row(xs[i], ys[..0]) == Cross(xs[..i], ys)
    ensures Cross(xs[..i + 1], ys) == Cross(xs[..i], ys) + Row(xs[i], ys[..|ys|])
  {
    CrossGrows(xs, ys, i);
    assert ys[..|ys|] == ys;
  }
}
