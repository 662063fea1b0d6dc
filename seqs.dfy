/**
 * The list idiom the parser uses everywhere: append a value unless the list
 * already holds it (`if x not in xs: xs.append(x)`), and Python's `xs[:n]`.
 */
module Seqs {

  predicate NoDup<T(==)>(xs: seq<T>) {
    forall i, j :: 0 <= i < j < |xs| ==> xs[i] != xs[j]
  }

  /** `xs[:n]`. */
  function Take<T>(xs: seq<T>, n: nat): (r: seq<T>)
    ensures |r| == if |xs| <= n then |xs| else n
    ensures r == xs[..|r|]
  {
    if |xs| <= n then xs else xs[..n]
  }

  /** `if x not in acc: acc.append(x)`. */
  function AppendNew<T(==)>(acc: seq<T>, x: T): seq<T> {
    if x in acc then acc else acc + [x]
  }

  /** Folds `AppendNew` over `xs` from the left. */
  function AppendAll<T(==,!new)>(acc: seq<T>, xs: seq<T>): (r: seq<T>)
    ensures |acc| <= |r| <= |acc| + |xs| && r[..|acc|] == acc
    decreases |xs|
  {
    if xs == [] then acc
    else
      var p := AppendAll(acc, xs[..|xs| - 1]);
      var r := AppendNew(p, xs[|xs| - 1]);
      assert r[..|p|] == p;
      r
  }

  /**
   * The fold keeps exactly the values of `acc` and `xs`; whatever it adds
   * after `acc` comes from `xs` and is new at the point it is added; a list
   * without repeats stays without repeats.
   */
  lemma {:induction false} AppendAllFacts<T(!new)>(acc: seq<T>, xs: seq<T>)
    ensures forall x :: x in AppendAll(acc, xs) <==> x in acc || x in xs
    ensures forall k :: |acc| <= k < |AppendAll(acc, xs)| ==>
      AppendAll(acc, xs)[k] in xs && AppendAll(acc, xs)[k] !in AppendAll(acc, xs)[..k]
    ensures NoDup(acc) ==> NoDup(AppendAll(acc, xs))
    decreases |xs|
  {
    if xs != [] {
      var front := xs[..|xs| - 1];
      var x := xs[|xs| - 1];
      assert xs == front + [x];
      AppendAllFacts(acc, front);
      var p := AppendAll(acc, front);
      var r := AppendAll(acc, xs);
      assert r == AppendNew(p, x);
      assert forall k :: 0 <= k <= |p| ==> r[..k] == p[..k];
    }
  }

  /** Folding over a concatenation folds over each part in turn. */
  lemma {:induction false} AppendAllConcat<T(!new)>(acc: seq<T>, xs: seq<T>, ys: seq<T>)
    ensures AppendAll(acc, xs + ys) == AppendAll(AppendAll(acc, xs), ys)
    decreases |ys|
  {
    if ys == [] {
      assert xs + ys == xs;
    } else {
      var front := ys[..|ys| - 1];
      var y := ys[|ys| - 1];
      assert ys == front + [y];
      assert xs + ys == (xs + front) + [y];
      AppendAllConcat(acc, xs, front);
      calc {
        AppendAll(acc, xs + ys);
        { AppendAllSnoc(acc, xs + front, y); }
        AppendNew(AppendAll(acc, xs + front), y);
        AppendNew(AppendAll(AppendAll(acc, xs), front), y);
        { AppendAllSnoc(AppendAll(acc, xs), front, y); }
        AppendAll(AppendAll(acc, xs), ys);
      }
    }
  }

  /** Folding over one more value is one more `AppendNew`. */
  lemma AppendAllSnoc<T(!new)>(acc: seq<T>, xs: seq<T>, x: T)
    ensures AppendAll(acc, xs + [x]) == AppendNew(AppendAll(acc, xs), x)
  {
    assert (xs + [x])[..|xs|] == xs;
  }

  /** The position at which `x` first occurs in `xs`. */
  function FirstIndex<T(==)>(xs: seq<T>, x: T): (i: nat)
    requires x in xs
    ensures i < |xs| && xs[i] == x && x !in xs[..i]
  {
    if xs[0] == x then 0
    else
      var i := 1 + FirstIndex(xs[1..], x);
      assert xs[..i] == [xs[0]] + xs[1..][..i - 1];
      i
  }

  /** Appending does not move the first occurrence of a value already present. */
  lemma FirstIndexSnoc<T>(xs: seq<T>, x: T, y: T)
    requires y in xs
    ensures FirstIndex(xs + [x], y) == FirstIndex(xs, y)
  {
    var i := FirstIndex(xs, y);
    var j := FirstIndex(xs + [x], y);
    assert (xs + [x])[..i] == xs[..i];
    assert (xs + [x])[i] == y;
  }

  /**
   * Deduplication keeps values in the order of their first occurrence:
   * the earlier of two kept values was found earlier.
   */
  lemma {:induction false} AppendAllOrder<T(!new)>(xs: seq<T>)
    ensures forall i :: 0 <= i < |AppendAll([], xs)| ==> AppendAll([], xs)[i] in xs
    ensures forall i, j :: 0 <= i < j < |AppendAll([], xs)| ==>
      FirstIndex(xs, AppendAll([], xs)[i]) < FirstIndex(xs, AppendAll([], xs)[j])
    decreases |xs|
  {
    AppendAllFacts([], xs);
    if xs != [] {
      var front := xs[..|xs| - 1];
      var x := xs[|xs| - 1];
      assert xs == front + [x];
      AppendAllOrder(front);
      AppendAllFacts([], front);
      var p := AppendAll([], front);
      var r := AppendAll([], xs);
      assert r == AppendNew(p, x);
      forall i, j | 0 <= i < j < |r| ensures FirstIndex(xs, r[i]) < FirstIndex(xs, r[j]) {
        assert r[i] == p[i];
        FirstIndexSnoc(front, x, p[i]);
        if j < |p| {
          assert r[j] == p[j];
          FirstIndexSnoc(front, x, p[j]);
        } else {
          assert r[j] == x && x !in front;
          assert xs[..|xs| - 1] == front;
        }
      }
    }
  }

  /**
   * The first `n` distinct values of `xs`, in order of first occurrence:
   * no repeats, each from `xs`, and every value of `xs` unless `n` were found.
   */
  lemma DedupPrefix<T(!new)>(xs: seq<T>, n: nat)
    ensures var ds := Take(AppendAll([], xs), n);
      |ds| <= n && NoDup(ds) &&
      (forall k :: 0 <= k < |ds| ==> ds[k] in xs) &&
      (|ds| < n ==> forall x :: x in xs ==> x in ds) &&
      (forall i, j :: 0 <= i < j < |ds| ==> FirstIndex(xs, ds[i]) < FirstIndex(xs, ds[j]))
  {
    var all := AppendAll([], xs);
    AppendAllFacts([], xs);
    AppendAllOrder(xs);
    var ds := Take(all, n);
    assert forall k :: 0 <= k < |ds| ==> ds[k] == all[k];
    assert |ds| < n ==> ds == all;
  }
}
