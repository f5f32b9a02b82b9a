/** Tables as sequences of rows, and the `WHERE` clause of a `SELECT` or
    `DELETE` as a filter that keeps the rows in table order. */
module Rows {
  import opened Wrappers

  /** The rows of `xs` that `keep` accepts, in their original order. */
  function Filter<T(!new)>(xs: seq<T>, keep: T -> bool): (r: seq<T>)
    ensures |r| <= |xs|
  {
    if xs == [] then []
    else (if keep(xs[0]) then [xs[0]] else []) + Filter(xs[1..], keep)
  }

  /** The filter keeps exactly the rows `keep` accepts. */
  lemma {:induction false} FilterMembers<T(!new)>(xs: seq<T>, keep: T -> bool)
    ensures forall x :: x in Filter(xs, keep) <==> x in xs && keep(x)
  {
    if xs != [] {
      FilterMembers(xs[1..], keep);
      assert xs == [xs[0]] + xs[1..];
    }
  }

  /** Filtering distributes over concatenation, so the order of the kept rows
      is their order in the table. */
  lemma {:induction false} FilterAppend<T(!new)>(xs: seq<T>, ys: seq<T>, keep: T -> bool)
    ensures Filter(xs + ys, keep) == Filter(xs, keep) + Filter(ys, keep)
  {
    if xs == [] {
      assert xs + ys == ys;
    } else {
      var head := if keep(xs[0]) then [xs[0]] else [];
      assert (xs + ys)[0] == xs[0];
      assert (xs + ys)[1..] == xs[1..] + ys;
      assert Filter(xs + ys, keep) == head + Filter(xs[1..] + ys, keep);
      assert Filter(xs, keep) == head + Filter(xs[1..], keep);
      FilterAppend(xs[1..], ys, keep);
      assert head + (Filter(xs[1..], keep) + Filter(ys, keep))
          == (head + Filter(xs[1..], keep)) + Filter(ys, keep);
    }
  }

  /** A filter every row passes keeps the whole table. */
  lemma {:induction false} FilterKeepsAll<T(!new)>(xs: seq<T>, keep: T -> bool)
    requires forall i :: 0 <= i < |xs| ==> keep(xs[i])
    ensures Filter(xs, keep) == xs
  {
    if xs != [] {
      assert keep(xs[0]);
      FilterKeepsAll(xs[1..], keep);
      assert [xs[0]] + xs[1..] == xs;
    }
  }

  /** A filter that some row fails removes at least one row. */
  lemma {:induction false} FilterShrinks<T(!new)>(xs: seq<T>, keep: T -> bool, k: nat)
    requires k < |xs| && !keep(xs[k])
    ensures |Filter(xs, keep)| < |xs|
  {
    if k > 0 {
      FilterShrinks(xs[1..], keep, k - 1);
    }
  }

  /** A filter that only one row fails removes exactly that row. */
  lemma {:induction false} FilterDropsOne<T(!new)>(xs: seq<T>, keep: T -> bool, k: nat)
    requires k < |xs| && !keep(xs[k])
    requires forall i :: 0 <= i < |xs| && i != k ==> keep(xs[i])
    ensures Filter(xs, keep) == xs[..k] + xs[k + 1..]
  {
    var before, after := xs[..k], xs[k + 1..];
    var mid := [xs[k]] + after;
    KeptSlice(xs, keep, 0, k);
    KeptSlice(xs, keep, k + 1, |xs|);
    assert xs[k + 1..|xs|] == after;
    assert Filter([xs[k]], keep) == [] by {
      assert [xs[k]][1..] == [];
    }
    assert xs == before + mid;
    FilterAppend(before, mid, keep);
    FilterAppend([xs[k]], after, keep);
    calc {
      Filter(xs, keep);
      Filter(before, keep) + Filter(mid, keep);
      before + (Filter([xs[k]], keep) + Filter(after, keep));
      before + ([] + after);
      { assert [] + after == after; }
      before + after;
    }
  }

  lemma KeptSlice<T(!new)>(xs: seq<T>, keep: T -> bool, lo: nat, hi: nat)
    requires lo <= hi <= |xs|
    requires forall i :: lo <= i < hi ==> keep(xs[i])
    ensures Filter(xs[lo..hi], keep) == xs[lo..hi]
  {
    var ys := xs[lo..hi];
    assert forall i :: 0 <= i < |ys| ==> keep(ys[i]) by {
      forall i | 0 <= i < |ys| ensures keep(ys[i]) {
        assert ys[i] == xs[lo + i];
      }
    }
    FilterKeepsAll(ys, keep);
  }

  /** A non-empty table is its rows before the last, then the last. */
  lemma SplitLast<T>(xs: seq<T>)
    requires xs != []
    ensures xs == xs[..|xs| - 1] + [xs[|xs| - 1]]
  {
  }

  /** No two rows share a key: the table's primary key. */
  predicate UniqueKeys<T(!new)>(xs: seq<T>, key: T -> int) {
    forall i, j :: 0 <= i < j < |xs| ==> key(xs[i]) != key(xs[j])
  }

  /** Deleting rows never creates a duplicate key. */
  lemma {:induction false} FilterKeepsUniqueKeys<T(!new)>(xs: seq<T>, keep: T -> bool, key: T -> int)
    requires UniqueKeys(xs, key)
    ensures UniqueKeys(Filter(xs, keep), key)
  {
    if xs != [] {
      var tail := xs[1..];
      assert UniqueKeys(tail, key) by {
        forall i, j | 0 <= i < j < |tail| ensures key(tail[i]) != key(tail[j]) {
          assert tail[i] == xs[i + 1] && tail[j] == xs[j + 1];
        }
      }
      FilterKeepsUniqueKeys(tail, keep, key);
      var rest := Filter(tail, keep);
      FilterMembers(tail, keep);
      forall y | y in rest ensures key(y) != key(xs[0]) {
        assert y in tail;
        var j :| 0 <= j < |tail| && tail[j] == y;
        assert xs[j + 1] == y;
      }
    }
  }

  /** The position of the first row `matches` accepts, as `fetchone()` after
      a `SELECT ... WHERE` finds it. */
  function FirstMatch<T(!new)>(xs: seq<T>, matches: T -> bool): (r: Option<nat>)
    ensures r.Some? ==> r.value < |xs| && matches(xs[r.value])
    ensures r.Some? ==> forall i :: 0 <= i < r.value ==> !matches(xs[i])
    ensures r.None? ==> forall i :: 0 <= i < |xs| ==> !matches(xs[i])
  {
    if xs == [] then None
    else if matches(xs[0]) then Some(0)
    else match FirstMatch(xs[1..], matches)
         case Some(k) => Some(k + 1)
         case None => None
  }
}
