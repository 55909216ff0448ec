/**
 * `advanced_gaussian` (streamlit_app.py:66-73): a steady-state Gaussian
 * plume with total ground reflection, evaluated at ground level over the
 * downwind/crosswind grid.
 *
 * Floating-point `np.exp` and `X**0.894` have no definition over Dafny's
 * reals; the model takes them as the function parameters `exp` and `pow`
 * and assumes only what each lemma states about them.
 */
module Plume {
  import opened Stability
  import opened Axes

  /** `np.pi`, as the double prints. */
  const Pi: real := 3.141592653589793

  /** The power-law exponent of sigma-y and sigma-z growth with distance. */
  const SpreadExponent: real := 0.894

  /** What the model needs of the supplied power function. */
  ghost predicate PositivePower(pow: (real, real) -> real) {
    forall t :: t > 0.0 ==> pow(t, SpreadExponent) > 0.0
  }

  /** sigma-y at downwind distance `x` metres (line 70). */
  function SigmaY(cls: string, x: real, pow: (real, real) -> real): (s: real)
    requires x > 0.0 && PositivePower(pow)
    ensures s > 0.0
  {
    SigmaYCoefficient(cls) * pow(x, SpreadExponent)
  }

  /** sigma-z at downwind distance `x` metres (line 71). */
  function SigmaZ(cls: string, x: real, pow: (real, real) -> real): (s: real)
    requires x > 0.0 && PositivePower(pow)
    ensures s > 0.0
  {
    SigmaZCoefficient(cls) * pow(x, SpreadExponent)
  }

  function Sq(v: real): (r: real)
    ensures r >= 0.0
  {
    v * v
  }

  /**
   * Ground-level concentration (g/m^3) at (x, y) metres from a source of
   * `q` g/s at height `h` m in wind `u` m/s (line 72): the direct term and
   * its mirror image below the ground.
   */
  function Concentration(q: real, u: real, h: real, cls: string, x: real, y: real,
                         exp: real -> real, pow: (real, real) -> real): real
    requires u > 0.0 && x > 0.0 && PositivePower(pow)
  {
    var sy := SigmaY(cls, x, pow);
    var sz := SigmaZ(cls, x, pow);
    (q / (2.0 * Pi * u * sy * sz))
      * exp(-0.5 * Sq(y / sy))
      * (exp(-0.5 * Sq((0.0 - h) / sz)) + exp(-0.5 * Sq((0.0 + h) / sz)))
  }

  /** y enters only squared: the plume is mirrored about its centre line. */
  lemma ConcentrationSymmetric(q: real, u: real, h: real, cls: string, x: real, y: real,
                               exp: real -> real, pow: (real, real) -> real)
    requires u > 0.0 && x > 0.0 && PositivePower(pow)
    ensures Concentration(q, u, h, cls, x, -y, exp, pow) == Concentration(q, u, h, cls, x, y, exp, pow)
  {
    var sy := SigmaY(cls, x, pow);
    assert Sq(-y / sy) == Sq(y / sy) by {
      assert -y / sy == -(y / sy);
    }
  }

  /** The image source at -h contributes exactly as much as the real one at +h. */
  lemma ReflectionDoubles(q: real, u: real, h: real, cls: string, x: real, y: real,
                          exp: real -> real, pow: (real, real) -> real)
    requires u > 0.0 && x > 0.0 && PositivePower(pow)
    ensures Concentration(q, u, h, cls, x, y, exp, pow)
         == (q / (2.0 * Pi * u * SigmaY(cls, x, pow) * SigmaZ(cls, x, pow)))
            * exp(-0.5 * Sq(y / SigmaY(cls, x, pow)))
            * (2.0 * exp(-0.5 * Sq(h / SigmaZ(cls, x, pow))))
  {
    var sz := SigmaZ(cls, x, pow);
    assert Sq((0.0 - h) / sz) == Sq(h / sz) by {
      assert (0.0 - h) / sz == -(h / sz);
    }
    assert (0.0 + h) / sz == h / sz;
  }

  /** The normalising denominator of line 72 is positive. */
  lemma DenominatorPositive(u: real, sy: real, sz: real)
    requires u > 0.0 && sy > 0.0 && sz > 0.0
    ensures 2.0 * Pi * u * sy * sz > 0.0
  {
    assert 2.0 * Pi * u > 0.0;
    assert 2.0 * Pi * u * sy > 0.0;
  }

  /** A product of three non-negative factors. */
  lemma ProductNonNegative(a: real, e: real, b: real)
    requires a >= 0.0 && e >= 0.0 && b >= 0.0
    ensures a * e * b >= 0.0
  {
    assert a * e >= 0.0;
  }

  /** Scaling by two non-negative factors keeps an order. */
  lemma ProductMonotone(a1: real, a2: real, e: real, b: real)
    requires a1 <= a2 && e >= 0.0 && b >= 0.0
    ensures a1 * e * b <= a2 * e * b
  {
    var eb := e * b;
    assert eb >= 0.0;
    assert a1 * e * b == a1 * eb && a2 * e * b == a2 * eb;
    assert a1 * eb <= a2 * eb;
  }

  /** With a non-negative exponential, a non-negative rate gives a non-negative cell. */
  lemma ConcentrationNonNegative(q: real, u: real, h: real, cls: string, x: real, y: real,
                                 exp: real -> real, pow: (real, real) -> real)
    requires u > 0.0 && x > 0.0 && PositivePower(pow)
    requires q >= 0.0 && forall t :: exp(t) >= 0.0
    ensures Concentration(q, u, h, cls, x, y, exp, pow) >= 0.0
  {
    var sy, sz := SigmaY(cls, x, pow), SigmaZ(cls, x, pow);
    var den := 2.0 * Pi * u * sy * sz;
    DenominatorPositive(u, sy, sz);
    var e := exp(-0.5 * Sq(y / sy));
    var b := exp(-0.5 * Sq((0.0 - h) / sz)) + exp(-0.5 * Sq((0.0 + h) / sz));
    ProductNonNegative(q / den, e, b);
  }

  /** A stronger release never lowers the concentration at any point. */
  lemma ConcentrationMonotoneInRate(q1: real, q2: real, u: real, h: real, cls: string, x: real, y: real,
                                    exp: real -> real, pow: (real, real) -> real)
    requires u > 0.0 && x > 0.0 && PositivePower(pow)
    requires q1 <= q2 && forall t :: exp(t) >= 0.0
    ensures Concentration(q1, u, h, cls, x, y, exp, pow) <= Concentration(q2, u, h, cls, x, y, exp, pow)
  {
    var sy, sz := SigmaY(cls, x, pow), SigmaZ(cls, x, pow);
    var den := 2.0 * Pi * u * sy * sz;
    DenominatorPositive(u, sy, sz);
    var e := exp(-0.5 * Sq(y / sy));
    var b := exp(-0.5 * Sq((0.0 - h) / sz)) + exp(-0.5 * Sq((0.0 + h) / sz));
    assert q1 / den <= q2 / den;
    ProductMonotone(q1 / den, q2 / den, e, b);
  }

  /** The solver's output: both coordinate grids in km and the concentration grid. */
  datatype Dispersion = Dispersion(xKm: seq<seq<real>>, yKm: seq<seq<real>>, c: seq<seq<real>>)

  /** A grid with `rows` rows of `cols` cells each. */
  predicate IsGrid(g: seq<seq<real>>, rows: nat, cols: nat) {
    |g| == rows && forall i :: 0 <= i < rows ==> |g[i]| == cols
  }

  /** Every downwind sample is positive when the domain reaches at least 10 m. */
  lemma DownwindAxisPositive(xMax: real)
    requires xMax * 1000.0 >= 10.0
    ensures forall j :: 0 <= j < GridSize ==> DownwindAxis(xMax)[j] > 0.0
  {
    LinspaceBounded(10.0, xMax * 1000.0, GridSize);
  }

  /** The concentration grid: row `i` is crosswind sample `i`, column `j` downwind sample `j`. */
  function PlumeGrid(q: real, u: real, h: real, cls: string, xMax: real,
                     exp: real -> real, pow: (real, real) -> real): (c: seq<seq<real>>)
    requires u > 0.0 && xMax * 1000.0 >= 10.0 && PositivePower(pow)
    ensures IsGrid(c, GridSize, GridSize)
  {
    var x, y := DownwindAxis(xMax), CrosswindAxis(xMax);
    var gx, gy := MeshX(x, y), MeshY(x, y);
    DownwindAxisPositive(xMax);
    seq(GridSize, i requires 0 <= i < GridSize =>
      seq(GridSize, j requires 0 <= j < GridSize =>
        Concentration(q, u, h, cls, gx[i][j], gy[i][j], exp, pow)))
  }

  /** The cell of `PlumeGrid` at crosswind row `i`, downwind column `j`. */
  lemma PlumeGridCell(q: real, u: real, h: real, cls: string, xMax: real,
                      exp: real -> real, pow: (real, real) -> real, i: nat, j: nat)
    requires u > 0.0 && xMax * 1000.0 >= 10.0 && PositivePower(pow)
    requires i < GridSize && j < GridSize
    ensures DownwindAxis(xMax)[j] > 0.0
    ensures PlumeGrid(q, u, h, cls, xMax, exp, pow)[i][j]
         == Concentration(q, u, h, cls, DownwindAxis(xMax)[j], CrosswindAxis(xMax)[i], exp, pow)
  {
    DownwindAxisPositive(xMax);
  }

  /**
   * `advanced_gaussian(Q, u, H, stability, x_max)`. `np.nan_to_num` is the
   * identity here: every denominator is positive over the reals.
   */
  function AdvancedGaussian(q: real, u: real, h: real, cls: string, xMax: real,
                            exp: real -> real, pow: (real, real) -> real): (d: Dispersion)
    requires u > 0.0 && xMax * 1000.0 >= 10.0 && PositivePower(pow)
    ensures IsGrid(d.xKm, GridSize, GridSize) && IsGrid(d.yKm, GridSize, GridSize)
    ensures IsGrid(d.c, GridSize, GridSize)
    ensures forall i :: 0 <= i < GridSize ==> d.xKm[i] == AxisToKm(DownwindAxis(xMax))
    ensures forall i, j :: 0 <= i < GridSize && 0 <= j < GridSize ==>
              d.yKm[i][j] * 1000.0 == CrosswindAxis(xMax)[i]
  {
    var x, y := DownwindAxis(xMax), CrosswindAxis(xMax);
    Dispersion(GridToKm(MeshX(x, y)), GridToKm(MeshY(x, y)), PlumeGrid(q, u, h, cls, xMax, exp, pow))
  }

  /** Cell (i, j) of the field equals cell (N-1-i, j). */
  lemma PlumeGridCellMirrored(q: real, u: real, h: real, cls: string, xMax: real,
                              exp: real -> real, pow: (real, real) -> real, i: nat, j: nat)
    requires u > 0.0 && xMax * 1000.0 >= 10.0 && PositivePower(pow)
    requires i < GridSize && j < GridSize
    ensures PlumeGrid(q, u, h, cls, xMax, exp, pow)[i][j]
         == PlumeGrid(q, u, h, cls, xMax, exp, pow)[GridSize - 1 - i][j]
  {
    var x, y := DownwindAxis(xMax), CrosswindAxis(xMax);
    PlumeGridCell(q, u, h, cls, xMax, exp, pow, i, j);
    PlumeGridCell(q, u, h, cls, xMax, exp, pow, GridSize - 1 - i, j);
    assert y[GridSize - 1 - i] == -y[i];
    ConcentrationSymmetric(q, u, h, cls, x[j], y[i], exp, pow);
  }

  /** Crosswind rows `i` and `N-1-i` of the field are equal: the field is mirrored about y = 0. */
  lemma PlumeGridMirrored(q: real, u: real, h: real, cls: string, xMax: real,
                          exp: real -> real, pow: (real, real) -> real)
    requires u > 0.0 && xMax * 1000.0 >= 10.0 && PositivePower(pow)
    ensures forall i, j {:trigger PlumeGrid(q, u, h, cls, xMax, exp, pow)[i][j]} ::
              0 <= i < GridSize && 0 <= j < GridSize ==>
              PlumeGrid(q, u, h, cls, xMax, exp, pow)[i][j]
              == PlumeGrid(q, u, h, cls, xMax, exp, pow)[GridSize - 1 - i][j]
  {
    var c := PlumeGrid(q, u, h, cls, xMax, exp, pow);
    forall i, j {:trigger c[i][j]} | 0 <= i < GridSize && 0 <= j < GridSize
      ensures c[i][j] == c[GridSize - 1 - i][j]
    {
      PlumeGridCellMirrored(q, u, h, cls, xMax, exp, pow, i, j);
    }
  }

  /** With a non-negative exponential and rate, every cell of the field is non-negative. */
  lemma PlumeGridNonNegative(q: real, u: real, h: real, cls: string, xMax: real,
                             exp: real -> real, pow: (real, real) -> real)
    requires u > 0.0 && xMax * 1000.0 >= 10.0 && PositivePower(pow)
    requires q >= 0.0 && forall t :: exp(t) >= 0.0
    ensures forall i, j :: 0 <= i < GridSize && 0 <= j < GridSize ==>
              PlumeGrid(q, u, h, cls, xMax, exp, pow)[i][j] >= 0.0
  {
    var x, y := DownwindAxis(xMax), CrosswindAxis(xMax);
    forall i, j | 0 <= i < GridSize && 0 <= j < GridSize
      ensures PlumeGrid(q, u, h, cls, xMax, exp, pow)[i][j] >= 0.0
    {
      PlumeGridCell(q, u, h, cls, xMax, exp, pow, i, j);
      ConcentrationNonNegative(q, u, h, cls, x[j], y[i], exp, pow);
    }
  }

  /** A stronger release raises (or keeps) every cell of the field. */
  lemma PlumeGridMonotoneInRate(q1: real, q2: real, u: real, h: real, cls: string, xMax: real,
                                exp: real -> real, pow: (real, real) -> real)
    requires u > 0.0 && xMax * 1000.0 >= 10.0 && PositivePower(pow)
    requires q1 <= q2 && forall t :: exp(t) >= 0.0
    ensures forall i, j :: 0 <= i < GridSize && 0 <= j < GridSize ==>
              PlumeGrid(q1, u, h, cls, xMax, exp, pow)[i][j] <= PlumeGrid(q2, u, h, cls, xMax, exp, pow)[i][j]
  {
    var x, y := DownwindAxis(xMax), CrosswindAxis(xMax);
    forall i, j | 0 <= i < GridSize && 0 <= j < GridSize
      ensures PlumeGrid(q1, u, h, cls, xMax, exp, pow)[i][j] <= PlumeGrid(q2, u, h, cls, xMax, exp, pow)[i][j]
    {
      PlumeGridCell(q1, u, h, cls, xMax, exp, pow, i, j);
      PlumeGridCell(q2, u, h, cls, xMax, exp, pow, i, j);
      ConcentrationMonotoneInRate(q1, q2, u, h, cls, x[j], y[i], exp, pow);
    }
  }
}
