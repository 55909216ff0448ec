/**
 * The sampling grid of `advanced_gaussian` (streamlit_app.py:67-69, 73):
 * `np.linspace` axes, the `np.meshgrid` outer product and the conversion of
 * metres to kilometres.
 *
 * Over exact reals `linspace(a, b, n)` is the sequence `a + i*(b-a)/(n-1)`
 * for i in 0..n-1; the source always uses n = 1200, the model any n >= 2.
 */
module Axes {

  /** Samples per axis in the source. */
  const GridSize: nat := 1200

  /** The `i`-th of `n` evenly spaced samples from `a` to `b`. */
  function Sample(a: real, b: real, n: nat, i: nat): (x: real)
    requires n >= 2
    ensures i == 0 ==> x == a
    ensures i == n - 1 ==> x == b
  {
    a + (i as real) * ((b - a) / ((n - 1) as real))
  }

  /** `np.linspace(a, b, n)`. */
  function Linspace(a: real, b: real, n: nat): (xs: seq<real>)
    requires n >= 2
    ensures |xs| == n
    ensures xs[0] == a && xs[n - 1] == b
  {
    var xs := seq(n, i requires 0 <= i < n => Sample(a, b, n, i));
    assert xs[n - 1] == b by {
      var d := (b - a) / ((n - 1) as real);
      assert xs[n - 1] == a + ((n - 1) as real) * d;
      assert ((n - 1) as real) * d == b - a;
    }
    xs
  }

  predicate StrictlyIncreasing(xs: seq<real>) {
    forall i, j :: 0 <= i < j < |xs| ==> xs[i] < xs[j]
  }

  /** `xs[i] == -xs[n-1-i]`: the axis is mirrored about zero. */
  predicate Symmetric(xs: seq<real>) {
    forall i :: 0 <= i < |xs| ==> xs[i] == -xs[|xs| - 1 - i]
  }

  /** Multiplying by a positive step keeps a strict order. */
  lemma ScaleStrict(k1: real, k2: real, d: real)
    requires k1 < k2 && d > 0.0
    ensures k1 * d < k2 * d
  {
    assert k2 * d - k1 * d == (k2 - k1) * d;
  }

  /** Multiplying by a non-negative step keeps a weak order. */
  lemma ScaleWeak(k1: real, k2: real, d: real)
    requires k1 <= k2 && d >= 0.0
    ensures k1 * d <= k2 * d
  {
    assert k2 * d - k1 * d == (k2 - k1) * d;
  }

  /** The last sample is `b`: `n-1` steps cover the whole interval. */
  lemma StepsCoverInterval(a: real, b: real, n: nat)
    requires n >= 2
    ensures ((n - 1) as real) * ((b - a) / ((n - 1) as real)) == b - a
  {
  }

  /** On a rising interval a later sample is larger. */
  lemma SampleStrict(a: real, b: real, n: nat, i: nat, j: nat)
    requires n >= 2 && a < b && i < j
    ensures Sample(a, b, n, i) < Sample(a, b, n, j)
  {
    var d := (b - a) / ((n - 1) as real);
    assert d > 0.0;
    ScaleStrict(i as real, j as real, d);
  }

  /** Every sample up to index `n-1` lies between the end points. */
  lemma SampleBetween(a: real, b: real, n: nat, i: nat)
    requires n >= 2 && a <= b && i < n
    ensures a <= Sample(a, b, n, i) <= b
  {
    var d := (b - a) / ((n - 1) as real);
    assert d >= 0.0;
    StepsCoverInterval(a, b, n);
    ScaleWeak(0.0, i as real, d);
    ScaleWeak(i as real, (n - 1) as real, d);
  }

  /** A rising interval gives a strictly increasing axis. */
  lemma LinspaceIncreasing(a: real, b: real, n: nat)
    requires n >= 2 && a < b
    ensures StrictlyIncreasing(Linspace(a, b, n))
  {
    var xs := Linspace(a, b, n);
    forall i, j | 0 <= i < j < n ensures xs[i] < xs[j] {
      SampleStrict(a, b, n, i, j);
    }
  }

  /** Every sample lies between the two end points. */
  lemma LinspaceBounded(a: real, b: real, n: nat)
    requires n >= 2 && a <= b
    ensures forall i :: 0 <= i < n ==> a <= Linspace(a, b, n)[i] <= b
  {
    var xs := Linspace(a, b, n);
    forall i | 0 <= i < n ensures a <= xs[i] <= b {
      SampleBetween(a, b, n, i);
    }
  }

  /** Consecutive samples are one step `(b-a)/(n-1)` apart. */
  lemma LinspaceEvenlySpaced(a: real, b: real, n: nat, i: nat)
    requires n >= 2 && i + 1 < n
    ensures Linspace(a, b, n)[i + 1] - Linspace(a, b, n)[i] == (b - a) / ((n - 1) as real)
  {
    var d := (b - a) / ((n - 1) as real);
    assert ((i + 1) as real) * d == (i as real) * d + d;
  }

  /** An interval symmetric about zero gives a mirrored axis. */
  lemma LinspaceSymmetric(c: real, n: nat)
    requires n >= 2
    ensures Symmetric(Linspace(-c, c, n))
  {
    var xs := Linspace(-c, c, n);
    var d := (c - -c) / ((n - 1) as real);
    assert ((n - 1) as real) * d == 2.0 * c;
    forall i | 0 <= i < n ensures xs[i] == -xs[n - 1 - i] {
      assert xs[i] == -c + (i as real) * d;
      assert xs[n - 1 - i] == -c + ((n - 1 - i) as real) * d;
    }
  }

  /** Downwind axis in metres: from 10 m to `xMax` km (line 67). */
  function DownwindAxis(xMax: real): (xs: seq<real>)
    ensures |xs| == GridSize
    ensures xs[0] == 10.0 && xs[GridSize - 1] == xMax * 1000.0
    ensures xMax * 1000.0 > 10.0 ==> StrictlyIncreasing(xs)
  {
    var xs := Linspace(10.0, xMax * 1000.0, GridSize);
    if xMax * 1000.0 > 10.0 then LinspaceIncreasing(10.0, xMax * 1000.0, GridSize); xs else xs
  }

  /** Crosswind axis in metres: from `-xMax` km to `xMax` km (line 68). */
  function CrosswindAxis(xMax: real): (ys: seq<real>)
    ensures |ys| == GridSize
    ensures ys[0] == -xMax * 1000.0 && ys[GridSize - 1] == xMax * 1000.0
    ensures Symmetric(ys)
  {
    LinspaceSymmetric(xMax * 1000.0, GridSize);
    Linspace(-(xMax * 1000.0), xMax * 1000.0, GridSize)
  }

  /** Metres to kilometres (line 73). */
  function ToKm(m: real): (km: real)
    ensures km * 1000.0 == m
  {
    m / 1000.0
  }

  /** A whole axis or row in kilometres. */
  function AxisToKm(xs: seq<real>): (ks: seq<real>)
    ensures |ks| == |xs|
    ensures forall i :: 0 <= i < |xs| ==> ks[i] * 1000.0 == xs[i]
  {
    seq(|xs|, i requires 0 <= i < |xs| => ToKm(xs[i]))
  }

  /** Kilometre conversion keeps an axis increasing and a mirrored axis mirrored. */
  lemma AxisToKmPreservesShape(xs: seq<real>)
    ensures StrictlyIncreasing(xs) ==> StrictlyIncreasing(AxisToKm(xs))
    ensures Symmetric(xs) ==> Symmetric(AxisToKm(xs))
  {
  }

  /**
   * `np.meshgrid(x, y)`: two grids with one row per crosswind sample and one
   * column per downwind sample; row `i`, column `j` holds `x[j]` and `y[i]`.
   */
  function MeshX(xs: seq<real>, ys: seq<real>): (g: seq<seq<real>>)
    ensures |g| == |ys|
    ensures forall i :: 0 <= i < |ys| ==> g[i] == xs
  {
    seq(|ys|, i requires 0 <= i < |ys| => xs)
  }

  function MeshY(xs: seq<real>, ys: seq<real>): (g: seq<seq<real>>)
    ensures |g| == |ys|
    ensures forall i :: 0 <= i < |ys| ==> |g[i]| == |xs|
    ensures forall i, j :: 0 <= i < |ys| && 0 <= j < |xs| ==> g[i][j] == ys[i]
  {
    seq(|ys|, i requires 0 <= i < |ys| => seq(|xs|, j => ys[i]))
  }

  /** A grid in kilometres, cell by cell. */
  function GridToKm(g: seq<seq<real>>): (k: seq<seq<real>>)
    ensures |k| == |g|
    ensures forall i :: 0 <= i < |g| ==> k[i] == AxisToKm(g[i])
  {
    seq(|g|, i requires 0 <= i < |g| => AxisToKm(g[i]))
  }
}
