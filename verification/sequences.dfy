/** Sequence operations in the shape of the JavaScript idioms the scrapers
    use: `findIndex`, and pushing only some elements inside a loop. */
module Sequences {
  import opened Results

  /** No element occurs twice. */
  predicate Distinct<T(==)>(xs: seq<T>) {
    forall i, j :: 0 <= i < j < |xs| ==> xs[i] != xs[j]
  }

  /** `xs.findIndex(e => e === x)`, with `None` in place of -1: the
      position of the first element equal to `x`. */
  function IndexOf<T(==)>(xs: seq<T>, x: T): (r: Option<nat>)
    ensures r.None? <==> x !in xs
    ensures r.Some? ==> r.value < |xs| && xs[r.value] == x && x !in xs[..r.value]
  {
    if |xs| == 0 then None
    else if xs[0] == x then Some(0)
    else match IndexOf(xs[1..], x)
      case None => None
      case Some(i) =>
        assert xs[..i + 1] == [xs[0]] + xs[1..][..i];
        Some(i + 1)
  }

  /** In a sequence without duplicates every element is found at its own
      position. */
  lemma IndexOfDistinct<T>(xs: seq<T>, i: nat)
    requires Distinct(xs) && i < |xs|
    ensures IndexOf(xs, xs[i]) == Some(i)
  {
  }

  /** A loop that pushes the value of every `Some` and skips every `None`,
      written as a left fold. */
  function Collect<T>(cells: seq<Option<T>>): (r: seq<T>)
    ensures |r| <= |cells|
  {
    if |cells| == 0 then []
    else
      var init := Collect(cells[..|cells| - 1]);
      match cells[|cells| - 1]
      case Some(v) => init + [v]
      case None => init
  }

  /** The positions of the `Some` cells: all of them, each once, in
      increasing order. */
  function SomeIndices<T>(cells: seq<Option<T>>): (idx: seq<nat>)
    ensures forall k :: 0 <= k < |idx| ==> idx[k] < |cells| && cells[idx[k]].Some?
    ensures forall k, l :: 0 <= k < l < |idx| ==> idx[k] < idx[l]
    ensures forall i :: 0 <= i < |cells| && cells[i].Some? ==> i in idx
  {
    if |cells| == 0 then []
    else
      var n := |cells| - 1;
      var init := SomeIndices(cells[..n]);
      assert forall i :: 0 <= i < n ==> cells[..n][i] == cells[i];
      init + if cells[n].Some? then [n] else []
  }

  /** What `Collect` pushes is the `Some` cells' values, one for one and in
      order. */
  lemma {:induction false} CollectFollowsSomeIndices<T>(cells: seq<Option<T>>)
    ensures |Collect(cells)| == |SomeIndices(cells)|
    ensures forall k :: 0 <= k < |Collect(cells)| ==>
      cells[SomeIndices(cells)[k]] == Some(Collect(cells)[k])
  {
    if |cells| > 0 {
      var n := |cells| - 1;
      var init := cells[..n];
      CollectFollowsSomeIndices(init);
      var r, idx := Collect(init), SomeIndices(init);
      forall k | 0 <= k < |r|
        ensures cells[idx[k]] == Some(r[k])
      {
        assert init[idx[k]] == cells[idx[k]];
      }
      match cells[n]
      case Some(v) =>
        assert Collect(cells) == r + [v];
        assert SomeIndices(cells) == idx + [n];
      case None =>
        assert Collect(cells) == r;
        assert SomeIndices(cells) == idx;
    }
  }

  /** When every cell is a `Some`, nothing is skipped. */
  lemma AllSomeCollected<T>(cells: seq<Option<T>>)
    requires forall i :: 0 <= i < |cells| ==> cells[i].Some?
    ensures |Collect(cells)| == |cells|
    ensures forall i :: 0 <= i < |cells| ==> Some(Collect(cells)[i]) == cells[i]
  {
    CollectFollowsSomeIndices(cells);
    var idx := SomeIndices(cells);
    SomeIndicesOfAllSome(cells);
  }

  lemma {:induction false} SomeIndicesOfAllSome<T>(cells: seq<Option<T>>)
    requires forall i :: 0 <= i < |cells| ==> cells[i].Some?
    ensures SomeIndices(cells) == seq(|cells|, i => i)
  {
    if |cells| > 0 {
      var n := |cells| - 1;
      assert forall i :: 0 <= i < n ==> cells[..n][i] == cells[i];
      SomeIndicesOfAllSome(cells[..n]);
    }
  }

  function Min(a: int, b: int): int {
    if a < b then a else b
  }

  /** A loop that pushes each element while fewer than `cap` have been
      pushed, written as a left fold. */
  function PushWhileShort<T>(xs: seq<T>, cap: nat): (r: seq<T>)
    ensures |r| == Min(|xs|, cap)
  {
    if |xs| == 0 then []
    else
      var init := PushWhileShort(xs[..|xs| - 1], cap);
      if |init| < cap then init + [xs[|xs| - 1]] else init
  }

  /** Such a loop keeps exactly the first `cap` elements, in order. */
  lemma {:induction false} PushWhileShortIsPrefix<T>(xs: seq<T>, cap: nat)
    ensures PushWhileShort(xs, cap) == xs[..Min(|xs|, cap)]
  {
    if |xs| > 0 {
      var n := |xs| - 1;
      PushWhileShortIsPrefix(xs[..n], cap);
      if n < cap {
        assert xs[..n] + [xs[n]] == xs[..n + 1];
      }
    }
  }

  /** A loop that pushes the element at each index below `bound`, written
      as a left fold. */
  function PushBelowIndex<T>(xs: seq<T>, bound: nat): (r: seq<T>)
    ensures |r| == Min(|xs|, bound)
  {
    if |xs| == 0 then []
    else
      var n := |xs| - 1;
      var init := PushBelowIndex(xs[..n], bound);
      if n < bound then init + [xs[n]] else init
  }

  /** Such a loop keeps exactly the first `bound` elements, in order. */
  lemma {:induction false} PushBelowIndexIsPrefix<T>(xs: seq<T>, bound: nat)
    ensures PushBelowIndex(xs, bound) == xs[..Min(|xs|, bound)]
  {
    if |xs| > 0 {
      var n := |xs| - 1;
      PushBelowIndexIsPrefix(xs[..n], bound);
      if n < bound {
        assert xs[..n] + [xs[n]] == xs[..n + 1];
      }
    }
  }

  /** A loop over `cells` that assigns a variable, initially `None`, the
      value of the cell at position `index` when that cell is a `Some`,
      written as a left fold. */
  function AssignAtIndex<T>(cells: seq<Option<T>>, index: nat): (r: Option<T>)
    ensures r.Some? ==> index < |cells|
  {
    if |cells| == 0 then None
    else
      var n := |cells| - 1;
      var before := AssignAtIndex(cells[..n], index);
      if n == index && cells[n].Some? then cells[n] else before
  }

  /** Such a loop ends holding the cell at `index`, or `None` when there is
      no such cell. */
  lemma {:induction false} AssignAtIndexReadsOneCell<T>(cells: seq<Option<T>>, index: nat)
    ensures AssignAtIndex(cells, index) == if index < |cells| then cells[index] else None
  {
    if |cells| > index + 1 {
      var n := |cells| - 1;
      AssignAtIndexReadsOneCell(cells[..n], index);
      assert cells[..n][index] == cells[index];
    }
  }
}
