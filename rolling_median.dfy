/** pandas' `rolling(window=7, min_periods=1).median()` over a column with
    missing values: at each position, the median of the values present among
    that row and the six rows before it; missing when none is present. */
module RollingMedian {
  import opened Wrappers

  const WindowSize: nat := 7

  predicate SortedReals(s: seq<real>) {
    |s| < 2 || (s[0] <= s[1] && SortedReals(s[1..]))
  }

  function InsertReal(s: seq<real>, x: real): (r: seq<real>)
    requires SortedReals(s)
    ensures SortedReals(r)
    ensures multiset(r) == multiset(s) + multiset{x}
    ensures |r| == |s| + 1
    ensures r[0] == x || (s != [] && r[0] == s[0])
  {
    if s == [] then [x]
    else if x <= s[0] then [x] + s
    else
      var tail := InsertReal(s[1..], x);
      assert s == [s[0]] + s[1..];
      assert ([s[0]] + tail)[1..] == tail;
      [s[0]] + tail
  }

  function SortReals(s: seq<real>): (r: seq<real>)
    ensures SortedReals(r)
    ensures multiset(r) == multiset(s)
    ensures |r| == |s|
  {
    if s == [] then []
    else
      assert s == s[..|s| - 1] + [s[|s| - 1]];
      InsertReal(SortReals(s[..|s| - 1]), s[|s| - 1])
  }

  function MinOf(s: seq<real>): (m: real)
    requires s != []
    ensures m in s
    ensures forall i :: 0 <= i < |s| ==> m <= s[i]
  {
    if |s| == 1 then s[0]
    else
      var rest := MinOf(s[1..]);
      assert forall i :: 1 <= i < |s| ==> s[i] == s[1..][i - 1];
      if s[0] <= rest then s[0] else rest
  }

  function MaxOf(s: seq<real>): (m: real)
    requires s != []
    ensures m in s
    ensures forall i :: 0 <= i < |s| ==> s[i] <= m
  {
    if |s| == 1 then s[0]
    else
      var rest := MaxOf(s[1..]);
      assert forall i :: 1 <= i < |s| ==> s[i] == s[1..][i - 1];
      if s[0] >= rest then s[0] else rest
  }

  /** The median of the values: None when there are none; otherwise the
      middle of the sorted values, or the mean of the two middle ones when
      their number is even. */
  function Median(xs: seq<real>): (m: Option<real>)
    ensures m.None? <==> xs == []
  {
    if xs == [] then None
    else
      var sorted := SortReals(xs);
      var n := |sorted|;
      if n % 2 == 1 then Some(sorted[n / 2])
      else Some((sorted[n / 2 - 1] + sorted[n / 2]) / 2.0)
  }

  /** The median lies between the smallest and the largest value. */
  lemma MedianWithinBounds(xs: seq<real>)
    requires xs != []
    ensures MinOf(xs) <= Median(xs).value <= MaxOf(xs)
  {
    SortedWithinBounds(xs, SortReals(xs));
  }

  lemma SortedWithinBounds(xs: seq<real>, sorted: seq<real>)
    requires xs != [] && multiset(sorted) == multiset(xs)
    ensures forall i :: 0 <= i < |sorted| ==> MinOf(xs) <= sorted[i] <= MaxOf(xs)
  {
    forall i | 0 <= i < |sorted| ensures MinOf(xs) <= sorted[i] <= MaxOf(xs) {
      assert sorted[i] in multiset(xs);
      var k :| 0 <= k < |xs| && xs[k] == sorted[i];
    }
  }

  lemma {:induction false} SortedHeadIsLeast(a: seq<real>, v: real)
    requires SortedReals(a) && v in multiset(a)
    ensures a != [] && a[0] <= v
    decreases |a|
  {
    assert a == [a[0]] + a[1..];
    if v != a[0] {
      assert v in multiset(a[1..]);
      SortedHeadIsLeast(a[1..], v);
    }
  }

  lemma TailMultiset(a: seq<real>)
    requires a != []
    ensures multiset(a[1..]) == multiset(a) - multiset{a[0]}
  {
    assert a == [a[0]] + a[1..];
  }

  lemma SortedTail(a: seq<real>)
    requires SortedReals(a) && a != []
    ensures SortedReals(a[1..])
  {
  }

  lemma SortedHeadsEqual(a: seq<real>, b: seq<real>)
    requires SortedReals(a) && SortedReals(b) && a != []
    requires multiset(a) == multiset(b)
    ensures b != [] && a[0] == b[0]
  {
    assert a[0] in multiset(a);
    SortedHeadIsLeast(b, a[0]);
    assert b[0] in multiset(b);
    SortedHeadIsLeast(a, b[0]);
  }

  lemma TailsPermutation(a: seq<real>, b: seq<real>)
    requires a != [] && b != [] && a[0] == b[0]
    requires multiset(a) == multiset(b)
    ensures multiset(a[1..]) == multiset(b[1..])
  {
    TailMultiset(a);
    TailMultiset(b);
  }

  lemma {:induction false} SortedPermutationsEqual(a: seq<real>, b: seq<real>)
    requires SortedReals(a) && SortedReals(b)
    requires multiset(a) == multiset(b)
    ensures a == b
    decreases |a|
  {
    if a == [] {
      assert |multiset(b)| == 0;
    } else {
      SortedHeadsEqual(a, b);
      TailsPermutation(a, b);
      SortedTail(a);
      SortedTail(b);
      SortedPermutationsEqual(a[1..], b[1..]);
      assert a == [a[0]] + a[1..];
      assert b == [b[0]] + b[1..];
    }
  }

  /** The median depends only on which values are in the window, not on
      their order. */
  lemma MedianOfPermutation(xs: seq<real>, ys: seq<real>)
    requires multiset(xs) == multiset(ys)
    ensures Median(xs) == Median(ys)
  {
    var sx, sy := SortReals(xs), SortReals(ys);
    SortedPermutationsEqual(sx, sy);
    assert sx == sy;
  }

  /** The present values of a column slice, in order. */
  function Present(col: seq<Option<real>>): (vs: seq<real>)
    ensures |vs| <= |col|
  {
    if col == [] then []
    else
      var last := col[|col| - 1];
      Present(col[..|col| - 1]) + (if last.Some? then [last.value] else [])
  }

  function WindowStart(i: nat): nat {
    if i < WindowSize - 1 then 0 else i - (WindowSize - 1)
  }

  /** The values present in the window that ends at row `i`. */
  function WindowValues(col: seq<Option<real>>, i: nat): (vs: seq<real>)
    requires i < |col|
    ensures |vs| <= WindowSize
  {
    Present(col[WindowStart(i)..i + 1])
  }

  /** The window of a row whose value is present holds that value, so its
      baseline is present. */
  lemma {:induction false} CurrentValueInWindow(col: seq<Option<real>>, i: nat)
    requires i < |col| && col[i].Some?
    ensures col[i].value in WindowValues(col, i)
    ensures Median(WindowValues(col, i)).Some?
  {
    var w := col[WindowStart(i)..i + 1];
    assert w[..|w| - 1] == col[WindowStart(i)..i];
  }

  /** A one-row column: the baseline is the row's own value. */
  lemma {:induction false} SingleRowBaseline(col: seq<Option<real>>)
    requires |col| == 1
    ensures Median(WindowValues(col, 0)) == col[0]
  {
    assert col[WindowStart(0)..1] == col;
    assert col[..0] == [];
    if col[0].Some? {
      assert WindowValues(col, 0) == [col[0].value];
    }
  }

  lemma PresentAppend(s: seq<Option<real>>, x: Option<real>)
    ensures Present(s + [x]) == Present(s) + (if x.Some? then [x.value] else [])
  {
    assert (s + [x])[..|s|] == s;
  }

  /** The values present in the window ending at row `i`, collected by
      scanning the window. */
  method CollectWindow(col: seq<Option<real>>, i: nat) returns (window: seq<real>)
    requires i < |col|
    ensures window == WindowValues(col, i)
  {
    var lo := WindowStart(i);
    window := [];
    var j := lo;
    while j <= i
      invariant lo <= j <= i + 1
      invariant window == Present(col[lo..j])
    {
      PresentAppend(col[lo..j], col[j]);
      assert col[lo..j + 1] == col[lo..j] + [col[j]];
      if col[j].Some? {
        window := window + [col[j].value];
      }
      j := j + 1;
    }
  }

  predicate IsBaselineAt(col: seq<Option<real>>, i: nat, b: Option<real>) {
    i < |col| && b == Median(WindowValues(col, i))
  }

  /** The baselines of every row of a column. */
  function Baselines(col: seq<Option<real>>): (b: seq<Option<real>>)
    ensures |b| == |col|
  {
    seq(|col|, k requires 0 <= k < |col| => Median(WindowValues(col, k)))
  }

  lemma BaselinesPrefix(col: seq<Option<real>>, i: nat)
    requires i < |col|
    ensures Baselines(col)[..i + 1] == Baselines(col)[..i] + [Median(WindowValues(col, i))]
  {
  }

  lemma BaselinesAreBaselines(col: seq<Option<real>>)
    ensures forall i :: 0 <= i < |col| ==> IsBaselineAt(col, i, Baselines(col)[i])
  {
  }

  /** The baseline column, computed row by row. */
  method RollingMedianColumn(col: seq<Option<real>>) returns (baseline: seq<Option<real>>)
    ensures |baseline| == |col|
    ensures forall i :: 0 <= i < |col| ==> IsBaselineAt(col, i, baseline[i])
  {
    baseline := [];
    var i := 0;
    while i < |col|
      invariant 0 <= i <= |col|
      invariant baseline == Baselines(col)[..i]
    {
      var window := CollectWindow(col, i);
      var m := Median(window);
      BaselinesPrefix(col, i);
      baseline := baseline + [m];
      i := i + 1;
    }
    assert baseline == Baselines(col);
    BaselinesAreBaselines(col);
  }
}
