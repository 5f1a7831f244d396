/**
 * Sequence combinators that describe what the projectors' loops compute:
 * a map over a list that stops at the first element that raises, and the
 * flattening of a list of lists.
 */
module Traversal {
  import opened Wrappers
  import opened JsonValue

  /**
   * Applies `f` to each element in order, as a Python loop that appends
   * `f(x)` would; the first element on which `f` raises ends the loop with
   * that fault.
   */
  function Traverse<A, B>(xs: seq<A>, f: A -> Result<B, Fault>): (r: Result<seq<B>, Fault>)
    decreases |xs|
    ensures r.Ok? ==> |r.value| == |xs|
  {
    if xs == [] then Ok([])
    else
      var init :- Traverse(xs[..|xs| - 1], f);
      var last :- f(xs[|xs| - 1]);
      Ok(init + [last])
  }

  /** The traversal succeeds iff `f` succeeds on every element, and then its k-th result is `f`'s result on element k. */
  lemma {:induction false} TraverseOk<A, B>(xs: seq<A>, f: A -> Result<B, Fault>)
    ensures Traverse(xs, f).Ok? <==> forall k :: 0 <= k < |xs| ==> f(xs[k]).Ok?
    ensures Traverse(xs, f).Ok? ==> forall k :: 0 <= k < |xs| ==> f(xs[k]) == Ok(Traverse(xs, f).value[k])
    decreases |xs|
  {
    if xs != [] {
      var n := |xs| - 1;
      TraverseOk(xs[..n], f);
      assert forall k :: 0 <= k < n ==> xs[..n][k] == xs[k];
    }
  }

  /** If the elements before `i` all succeed and element `i` raises, the whole traversal raises that fault. */
  lemma {:induction false} TraverseFirstFault<A, B>(xs: seq<A>, f: A -> Result<B, Fault>, i: nat)
    requires i < |xs|
    requires Traverse(xs[..i], f).Ok?
    requires f(xs[i]).Err?
    ensures Traverse(xs, f) == Err(f(xs[i]).error)
    decreases |xs|
  {
    var n := |xs| - 1;
    if i < n {
      assert xs[..n][..i] == xs[..i];
      TraverseFirstFault(xs[..n], f, i);
    } else {
      assert xs[..n] == xs[..i];
    }
  }

  /** One more successful step of the loop extends the accumulated result by one element. */
  lemma TraverseStep<A, B>(xs: seq<A>, f: A -> Result<B, Fault>, i: nat, acc: seq<B>, b: B)
    requires i < |xs|
    requires Traverse(xs[..i], f) == Ok(acc)
    requires f(xs[i]) == Ok(b)
    ensures Traverse(xs[..i + 1], f) == Ok(acc + [b])
  {
    assert xs[..i + 1][..i] == xs[..i];
  }

  /** Concatenation of a list of lists, in list order and then element order. */
  function Flatten<T>(ss: seq<seq<T>>): (r: seq<T>)
    decreases |ss|
  {
    if ss == [] then [] else Flatten(ss[..|ss| - 1]) + ss[|ss| - 1]
  }

  /** Sum of the lengths of the inner lists. */
  function TotalLength<T>(ss: seq<seq<T>>): nat
    decreases |ss|
  {
    if ss == [] then 0 else TotalLength(ss[..|ss| - 1]) + |ss[|ss| - 1]|
  }

  /** Where list `i` starts inside `Flatten(ss)`. */
  function Offset<T>(ss: seq<seq<T>>, i: nat): nat
    requires i <= |ss|
  {
    TotalLength(ss[..i])
  }

  lemma {:induction false} FlattenLength<T>(ss: seq<seq<T>>)
    ensures |Flatten(ss)| == TotalLength(ss)
    decreases |ss|
  {
    if ss != [] {
      FlattenLength(ss[..|ss| - 1]);
    }
  }

  /** Element `j` of list `i` sits at `Offset(ss, i) + j` of the flattened list. */
  lemma {:induction false} FlattenIndex<T>(ss: seq<seq<T>>, i: nat, j: nat)
    requires i < |ss| && j < |ss[i]|
    ensures Offset(ss, i) + j < |Flatten(ss)|
    ensures Flatten(ss)[Offset(ss, i) + j] == ss[i][j]
    decreases |ss|
  {
    var n := |ss| - 1;
    var init := ss[..n];
    FlattenLength(init);
    FlattenLength(ss);
    if i == n {
      assert ss[..i] == init;
    } else {
      assert init[..i] == ss[..i];
      FlattenIndex(init, i, j);
      TotalLengthPrefix(init, i + 1);
      assert init[..i + 1][..i] == init[..i];
    }
  }

  lemma {:induction false} TotalLengthPrefix<T>(ss: seq<seq<T>>, i: nat)
    requires i <= |ss|
    ensures TotalLength(ss[..i]) <= TotalLength(ss)
    decreases |ss|
  {
    if i < |ss| {
      assert ss[..|ss| - 1][..i] == ss[..i];
      TotalLengthPrefix(ss[..|ss| - 1], i);
    } else {
      assert ss[..i] == ss;
    }
  }

  lemma FlattenSnoc<T>(ss: seq<seq<T>>, s: seq<T>)
    ensures Flatten(ss + [s]) == Flatten(ss) + s
  {
    assert (ss + [s])[..|ss|] == ss;
  }

  /** Traversing a concatenation succeeds iff both halves do, and yields the concatenated results. */
  lemma {:induction false} TraverseConcat<A, B>(xs: seq<A>, ys: seq<A>, f: A -> Result<B, Fault>)
    ensures Traverse(xs + ys, f).Ok? <==> Traverse(xs, f).Ok? && Traverse(ys, f).Ok?
    ensures Traverse(xs + ys, f).Ok? ==>
              Traverse(xs + ys, f).value == Traverse(xs, f).value + Traverse(ys, f).value
    decreases |ys|
  {
    if ys == [] {
      assert xs + ys == xs;
    } else {
      var n := |ys| - 1;
      assert (xs + ys)[..|xs + ys| - 1] == xs + ys[..n];
      TraverseConcat(xs, ys[..n], f);
    }
  }
}
