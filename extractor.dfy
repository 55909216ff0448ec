/**
 * The maximum threat distance of one threshold (streamlit_app.py:136-137):
 * the downwind coordinate of the last column whose crosswind maximum reaches
 * the level, or 0.0 when no column does.
 *
 * Row `i` of a field is crosswind sample `i` and column `j` is downwind
 * sample `j`, so `np.max(axis=0)` is the crosswind maximum of each downwind
 * column, and the result is the downwind coordinate of the LAST column whose
 * maximum reaches the level, whether or not the columns before it do.
 */
module Extractor {
  import opened Wrappers
  import opened Axes

  /** A non-empty grid whose rows all have the same length. */
  predicate Rectangular(field: seq<seq<real>>) {
    |field| > 0 && forall i :: 0 <= i < |field| ==> |field[i]| == |field[0]|
  }

  /** Number of downwind columns. */
  function Width(field: seq<seq<real>>): nat
    requires Rectangular(field)
  {
    |field[0]|
  }

  /** The largest element of a non-empty sequence. */
  function SeqMax(s: seq<real>): (m: real)
    requires |s| > 0
    ensures forall k :: 0 <= k < |s| ==> s[k] <= m
    ensures exists k :: 0 <= k < |s| && s[k] == m
  {
    if |s| == 1 then s[0]
    else
      var m := SeqMax(s[..|s| - 1]);
      if s[|s| - 1] > m then s[|s| - 1] else m
  }

  /** Column `j`: the field's values at downwind sample `j`, one per crosswind row. */
  function Column(field: seq<seq<real>>, j: nat): (col: seq<real>)
    requires Rectangular(field) && j < Width(field)
    ensures |col| == |field|
    ensures forall i :: 0 <= i < |field| ==> col[i] == field[i][j]
  {
    seq(|field|, i requires 0 <= i < |field| => field[i][j])
  }

  /** `np.max(C, axis=0)[j]`: the worst crosswind exposure at downwind sample `j`. */
  function ColumnMax(field: seq<seq<real>>, j: nat): (m: real)
    requires Rectangular(field) && j < Width(field)
    ensures forall i :: 0 <= i < |field| ==> field[i][j] <= m
    ensures exists i :: 0 <= i < |field| && field[i][j] == m
  {
    var col := Column(field, j);
    var m := SeqMax(col);
    assert exists i :: 0 <= i < |field| && col[i] == m;
    m
  }

  /** `C.max()`: the largest value anywhere in the field. */
  function GlobalMax(field: seq<seq<real>>): (m: real)
    requires Rectangular(field) && Width(field) > 0
    ensures forall i, j :: 0 <= i < |field| && 0 <= j < Width(field) ==> field[i][j] <= m
    ensures exists i, j :: 0 <= i < |field| && 0 <= j < Width(field) && field[i][j] == m
  {
    var maxima := seq(Width(field), j requires 0 <= j < Width(field) => ColumnMax(field, j));
    var m := SeqMax(maxima);
    assert forall i, j :: 0 <= i < |field| && 0 <= j < Width(field) ==> field[i][j] <= m by {
      forall i, j | 0 <= i < |field| && 0 <= j < Width(field) ensures field[i][j] <= m {
        assert field[i][j] <= maxima[j];
      }
    }
    var j :| 0 <= j < Width(field) && maxima[j] == m;
    var i :| 0 <= i < |field| && field[i][j] == ColumnMax(field, j);
    m
  }

  /** `np.max(C, axis=0)`: the crosswind maximum of every downwind column. */
  function ColumnMaxima(field: seq<seq<real>>): (ms: seq<real>)
    requires Rectangular(field)
    ensures |ms| == Width(field)
    ensures forall j :: 0 <= j < Width(field) ==> ms[j] == ColumnMax(field, j)
  {
    seq(Width(field), j requires 0 <= j < Width(field) => ColumnMax(field, j))
  }

  /** No element of `ms` below index `k` reaches `level`. */
  predicate NoneReach(ms: seq<real>, level: real, k: nat)
    requires k <= |ms|
  {
    forall j :: 0 <= j < k ==> ms[j] < level
  }

  /** Index of the last of the first `k` elements of `ms` that reaches `level`, if any. */
  function LastAtLeast(ms: seq<real>, level: real, k: nat): (r: Option<nat>)
    requires k <= |ms|
    ensures r.Some? ==> r.value < k
  {
    if k == 0 then None
    else if ms[k - 1] >= level then Some(k - 1)
    else LastAtLeast(ms, level, k - 1)
  }

  /**
   * `LastAtLeast` finds nothing exactly when no element reaches the level,
   * and otherwise an element that reaches it after which none does.
   */
  lemma {:induction false} LastAtLeastSpec(ms: seq<real>, level: real, k: nat)
    requires k <= |ms|
    ensures LastAtLeast(ms, level, k).None? <==> NoneReach(ms, level, k)
    ensures LastAtLeast(ms, level, k).Some? ==> ms[LastAtLeast(ms, level, k).value] >= level
    ensures LastAtLeast(ms, level, k).Some? ==>
              forall j :: LastAtLeast(ms, level, k).value < j < k ==> ms[j] < level
  {
    if k > 0 && ms[k - 1] < level {
      LastAtLeastSpec(ms, level, k - 1);
    }
  }

  /** An element that reaches the level with none after it reaching it is the one found. */
  lemma {:induction false} LastAtLeastIs(ms: seq<real>, level: real, k: nat, j: nat)
    requires j < k <= |ms|
    requires ms[j] >= level
    requires forall i :: j < i < k ==> ms[i] < level
    ensures LastAtLeast(ms, level, k) == Some(j)
  {
    if k - 1 != j {
      LastAtLeastIs(ms, level, k - 1, j);
    }
  }

  /**
   * The reported distance: the downwind coordinate `xs[j]` of the last
   * column whose crosswind maximum reaches the level, or 0.0 when none does.
   */
  function MaxDistance(field: seq<seq<real>>, xs: seq<real>, level: real): real
    requires Rectangular(field) && |xs| == Width(field)
  {
    match LastAtLeast(ColumnMaxima(field), level, |xs|)
    case None => 0.0
    case Some(j) => xs[j]
  }

  /** The maximum of a longer prefix adds one element to the comparison. */
  lemma SeqMaxStep(s: seq<real>, i: nat)
    requires 0 < i < |s|
    ensures SeqMax(s[..i + 1]) == if s[i] > SeqMax(s[..i]) then s[i] else SeqMax(s[..i])
  {
    assert s[..i + 1][..i] == s[..i];
  }

  /** `np.max(C, axis=0)[j]` as a running maximum down column `j`. */
  method CrosswindMax(field: seq<seq<real>>, j: nat) returns (m: real)
    requires Rectangular(field) && j < Width(field)
    ensures m == ColumnMax(field, j)
  {
    ghost var col := Column(field, j);
    m := field[0][j];
    for i := 1 to |field|
      invariant m == SeqMax(col[..i])
    {
      SeqMaxStep(col, i);
      if field[i][j] > m {
        m := field[i][j];
      }
    }
    assert col[..|field|] == col;
  }

  /** `np.max(C, axis=0)`, one downwind column at a time. */
  method CrosswindMaxima(field: seq<seq<real>>) returns (ms: seq<real>)
    requires Rectangular(field)
    ensures ms == ColumnMaxima(field)
  {
    ms := [];
    for j := 0 to Width(field)
      invariant ms == ColumnMaxima(field)[..j]
    {
      var m := CrosswindMax(field, j);
      ms := ms + [m];
    }
  }

  /** `np.where(ms >= level)` followed by `[-1]`: the index of the last element reaching `level`. */
  method LastIndexAtLeast(ms: seq<real>, level: real) returns (r: Option<nat>)
    ensures r == LastAtLeast(ms, level, |ms|)
  {
    r := None;
    for j := 0 to |ms|
      invariant r == LastAtLeast(ms, level, j)
    {
      if ms[j] >= level {
        r := Some(j);
      }
    }
  }

  /**
   * The computation the source performs: the crosswind maxima, the last
   * column among them that reaches the level, and that column's coordinate.
   */
  method MaxThreatDistance(field: seq<seq<real>>, xs: seq<real>, level: real) returns (dist: real)
    requires Rectangular(field) && |xs| == Width(field)
    ensures dist == MaxDistance(field, xs, level)
  {
    var ms := CrosswindMaxima(field);
    var last := LastIndexAtLeast(ms, level);
    if last.Some? {
      dist := xs[last.value];
    } else {
      dist := 0.0;
    }
  }

  /** With no column reaching the level the distance is 0.0. */
  lemma MaxDistanceNoneReached(field: seq<seq<real>>, xs: seq<real>, level: real)
    requires Rectangular(field) && |xs| == Width(field)
    requires NoneReach(ColumnMaxima(field), level, |xs|)
    ensures MaxDistance(field, xs, level) == 0.0
  {
    LastAtLeastSpec(ColumnMaxima(field), level, |xs|);
  }

  /**
   * Otherwise the distance is the coordinate of the largest-index column
   * that reaches the level, even if nearer columns do not.
   */
  lemma MaxDistanceIsLastQualifying(field: seq<seq<real>>, xs: seq<real>, level: real, j: nat)
    requires Rectangular(field) && |xs| == Width(field) && j < |xs|
    requires ColumnMax(field, j) >= level
    requires forall k :: j < k < |xs| ==> ColumnMax(field, k) < level
    ensures MaxDistance(field, xs, level) == xs[j]
  {
    var ms := ColumnMaxima(field);
    forall k | j < k < |xs| ensures ms[k] < level {
      assert ms[k] == ColumnMax(field, k);
    }
    LastAtLeastIs(ms, level, |xs|, j);
  }

  /** The reported distance is 0.0 or a sample of the downwind axis. */
  lemma MaxDistanceOnAxis(field: seq<seq<real>>, xs: seq<real>, level: real)
    requires Rectangular(field) && |xs| == Width(field)
    ensures MaxDistance(field, xs, level) == 0.0 || MaxDistance(field, xs, level) in xs
  {
  }

  /** On an axis with no zero sample, 0.0 means exactly "no column reaches the level". */
  lemma MaxDistanceZeroIff(field: seq<seq<real>>, xs: seq<real>, level: real)
    requires Rectangular(field) && |xs| == Width(field)
    requires forall j :: 0 <= j < |xs| ==> xs[j] != 0.0
    ensures MaxDistance(field, xs, level) == 0.0 <==> NoneReach(ColumnMaxima(field), level, |xs|)
  {
    LastAtLeastSpec(ColumnMaxima(field), level, |xs|);
  }

  /** A level above the field's maximum is reached nowhere: the distance is 0.0. */
  lemma MaxDistanceAboveGlobalMax(field: seq<seq<real>>, xs: seq<real>, level: real)
    requires Rectangular(field) && |xs| == Width(field) && |xs| > 0
    requires level > GlobalMax(field)
    ensures MaxDistance(field, xs, level) == 0.0
  {
    var ms := ColumnMaxima(field);
    forall j | 0 <= j < |xs| ensures ms[j] < level {
      var i :| 0 <= i < |field| && field[i][j] == ColumnMax(field, j);
    }
    LastAtLeastSpec(ms, level, |xs|);
  }

  /**
   * If every index where `m1` reaches `l1` is one where `m2` reaches `l2`,
   * the last such index of `m2` is at least that of `m1`.
   */
  lemma LastAtLeastGrows(m1: seq<real>, l1: real, m2: seq<real>, l2: real, k: nat)
    requires k <= |m1| && k <= |m2|
    requires forall j :: 0 <= j < k && m1[j] >= l1 ==> m2[j] >= l2
    ensures LastAtLeast(m1, l1, k).Some? ==>
              LastAtLeast(m2, l2, k).Some? && LastAtLeast(m1, l1, k).value <= LastAtLeast(m2, l2, k).value
  {
    var r1, r2 := LastAtLeast(m1, l1, k), LastAtLeast(m2, l2, k);
    LastAtLeastSpec(m1, l1, k);
    LastAtLeastSpec(m2, l2, k);
    if r1.Some? {
      assert m2[r1.value] >= l2;
      assert r2.Some?;
    }
  }

  /** An axis whose samples never fall and are never negative. */
  predicate Ascending(xs: seq<real>) {
    (forall j :: 0 <= j < |xs| ==> xs[j] >= 0.0)
    && forall i, j :: 0 <= i <= j < |xs| ==> xs[i] <= xs[j]
  }

  /** Raising the threshold never increases the reported distance. */
  lemma MaxDistanceMonotoneInLevel(field: seq<seq<real>>, xs: seq<real>, l1: real, l2: real)
    requires Rectangular(field) && |xs| == Width(field)
    requires Ascending(xs) && l1 <= l2
    ensures MaxDistance(field, xs, l2) <= MaxDistance(field, xs, l1)
  {
    var ms := ColumnMaxima(field);
    LastAtLeastGrows(ms, l2, ms, l1, |xs|);
  }

  /** A field that is nowhere lower gives a crosswind maximum that is nowhere lower. */
  lemma ColumnMaxMonotone(f1: seq<seq<real>>, f2: seq<seq<real>>, j: nat)
    requires Rectangular(f1) && Rectangular(f2) && |f1| == |f2| && Width(f1) == Width(f2)
    requires j < Width(f1)
    requires forall i :: 0 <= i < |f1| ==> f1[i][j] <= f2[i][j]
    ensures ColumnMax(f1, j) <= ColumnMax(f2, j)
  {
    var i :| 0 <= i < |f1| && f1[i][j] == ColumnMax(f1, j);
    assert f2[i][j] <= ColumnMax(f2, j);
  }

  /** `f1` is nowhere above `f2`. */
  predicate PointwiseLe(f1: seq<seq<real>>, f2: seq<seq<real>>)
    requires Rectangular(f1) && Rectangular(f2) && |f1| == |f2| && Width(f1) == Width(f2)
  {
    forall i, j :: 0 <= i < |f1| && 0 <= j < Width(f1) ==> f1[i][j] <= f2[i][j]
  }

  /** Increasing the field pointwise never decreases the reported distance. */
  lemma MaxDistanceMonotoneInField(f1: seq<seq<real>>, f2: seq<seq<real>>, xs: seq<real>, level: real)
    requires Rectangular(f1) && Rectangular(f2) && |f1| == |f2| && |xs| == Width(f1) == Width(f2)
    requires Ascending(xs) && PointwiseLe(f1, f2)
    ensures MaxDistance(f1, xs, level) <= MaxDistance(f2, xs, level)
  {
    var m1, m2 := ColumnMaxima(f1), ColumnMaxima(f2);
    forall j | 0 <= j < |xs| ensures m1[j] <= m2[j] {
      ColumnMaxMonotone(f1, f2, j);
    }
    LastAtLeastGrows(m1, level, m2, level, |xs|);
  }
}
