/** Sequence operations of the application: `filter` and the `[...new Set(xs)]` idiom. */
module Seqs {

  /** `xs.filter(p)` */
  function Filter<T(!new)>(p: T -> bool, xs: seq<T>): (r: seq<T>)
    ensures |r| <= |xs|
    ensures forall x :: x in r <==> x in xs && p(x)
  {
    if |xs| == 0 then []
    else if p(xs[0]) then [xs[0]] + Filter(p, xs[1..])
    else Filter(p, xs[1..])
  }

  /** Filtering a concatenation filters each part. */
  lemma {:induction false} FilterConcat<T(!new)>(p: T -> bool, xs: seq<T>, ys: seq<T>)
    ensures Filter(p, xs + ys) == Filter(p, xs) + Filter(p, ys)
  {
    if |xs| > 0 {
      assert (xs + ys)[1..] == xs[1..] + ys;
      FilterConcat(p, xs[1..], ys);
    } else {
      assert xs + ys == ys;
    }
  }

  /** No element occurs twice. */
  predicate Distinct<T(==)>(xs: seq<T>) {
    forall i, j :: 0 <= i < j < |xs| ==> xs[i] != xs[j]
  }

  /** `[...new Set(xs)]`: each element once, in the order of its first occurrence.
      Defined by appending the elements of `xs` one by one, as a `Set` does. */
  function Dedup<T(==,!new)>(xs: seq<T>): (r: seq<T>)
    ensures Distinct(r)
    ensures forall x :: x in r <==> x in xs
    decreases |xs|
  {
    if |xs| == 0 then []
    else
      var p := Dedup(xs[..|xs| - 1]);
      assert xs == xs[..|xs| - 1] + [xs[|xs| - 1]];
      if xs[|xs| - 1] in p then p else p + [xs[|xs| - 1]]
  }

  /** One step of `Dedup`: appending `x` adds it at the end exactly when it is new. */
  lemma DedupSnoc<T(!new)>(xs: seq<T>, x: T)
    ensures Dedup(xs + [x]) == if x in xs then Dedup(xs) else Dedup(xs) + [x]
  {
    assert (xs + [x])[..|xs + [x]| - 1] == xs;
  }

  /** Later elements never reorder the ones already seen: `Dedup(xs)` is a prefix of
      `Dedup(xs + ys)`. Together with distinctness and equal membership this pins down the
      first-occurrence order. */
  lemma {:induction false} DedupPrefix<T(!new)>(xs: seq<T>, ys: seq<T>)
    ensures Dedup(xs) <= Dedup(xs + ys)
    decreases |ys|
  {
    if |ys| == 0 {
      assert xs + ys == xs;
    } else {
      var ys' := ys[..|ys| - 1];
      var y := ys[|ys| - 1];
      assert xs + ys == (xs + ys') + [y];
      DedupPrefix(xs, ys');
      DedupSnoc(xs + ys', y);
    }
  }

  /** A sequence without duplicates is its own deduplication. */
  lemma {:induction false} DedupDistinct<T(!new)>(xs: seq<T>)
    requires Distinct(xs)
    ensures Dedup(xs) == xs
    decreases |xs|
  {
    if |xs| > 0 {
      var p := xs[..|xs| - 1];
      DedupDistinct(p);
      assert xs == p + [xs[|xs| - 1]];
      DedupSnoc(p, xs[|xs| - 1]);
    }
  }

  /** Deduplicating a suffix first changes nothing: `Dedup(xs + Dedup(ys)) == Dedup(xs + ys)`. */
  lemma {:induction false} DedupInnerSuffix<T(!new)>(xs: seq<T>, ys: seq<T>)
    ensures Dedup(xs + Dedup(ys)) == Dedup(xs + ys)
    decreases |ys|
  {
    if |ys| == 0 {
    } else {
      var ys' := ys[..|ys| - 1];
      var y := ys[|ys| - 1];
      assert ys == ys' + [y];
      DedupSnoc(ys', y);
      DedupInnerSuffix(xs, ys');
      assert xs + ys == (xs + ys') + [y];
      DedupSnoc(xs + ys', y);
      if y !in ys' {
        assert xs + (Dedup(ys') + [y]) == (xs + Dedup(ys')) + [y];
        DedupSnoc(xs + Dedup(ys'), y);
      }
    }
  }

  /** Deduplicating a prefix first changes nothing: `Dedup(Dedup(xs) + ys) == Dedup(xs + ys)`. */
  lemma {:induction false} DedupInnerPrefix<T(!new)>(xs: seq<T>, ys: seq<T>)
    ensures Dedup(Dedup(xs) + ys) == Dedup(xs + ys)
    decreases |ys|
  {
    if |ys| == 0 {
      assert Dedup(xs) + ys == Dedup(xs);
      assert xs + ys == xs;
      DedupDistinct(Dedup(xs));
    } else {
      var ys' := ys[..|ys| - 1];
      var y := ys[|ys| - 1];
      DedupInnerPrefix(xs, ys');
      assert ys == ys' + [y];
      DedupInnerPrefixStep(xs, ys', y);
    }
  }

  /** One element more on both sides of `DedupInnerPrefix`. */
  lemma DedupInnerPrefixStep<T(!new)>(xs: seq<T>, ys: seq<T>, y: T)
    requires Dedup(Dedup(xs) + ys) == Dedup(xs + ys)
    ensures Dedup(Dedup(xs) + (ys + [y])) == Dedup(xs + (ys + [y]))
  {
    var a, b := Dedup(xs) + ys, xs + ys;
    assert Dedup(xs) + (ys + [y]) == a + [y];
    assert xs + (ys + [y]) == b + [y];
    assert (y in a) == (y in b);
    DedupSnoc(a, y);
    DedupSnoc(b, y);
  }

  /** Merging two deduplicated lists and deduplicating again is the deduplication of the
      plain concatenation. */
  lemma DedupOfDedups<T(!new)>(xs: seq<T>, ys: seq<T>)
    ensures Dedup(Dedup(xs) + Dedup(ys)) == Dedup(xs + ys)
  {
    DedupInnerSuffix(Dedup(xs), ys);
    DedupInnerPrefix(xs, ys);
  }

  /** The `new Set` loop: walk `xs` once, remembering what was seen in a set. */
  method DedupWithSet<T(==,!new)>(xs: seq<T>) returns (r: seq<T>)
    ensures r == Dedup(xs)
  {
    var seen: set<T> := {};
    r := [];
    var i := 0;
    while i < |xs|
      invariant 0 <= i <= |xs|
      invariant r == Dedup(xs[..i])
      invariant forall x :: x in seen <==> x in xs[..i]
    {
      assert xs[..i + 1] == xs[..i] + [xs[i]];
      DedupSnoc(xs[..i], xs[i]);
      if xs[i] !in seen {
        seen := seen + {xs[i]};
        r := r + [xs[i]];
      }
      i := i + 1;
    }
    assert xs[..i] == xs;
  }
}
