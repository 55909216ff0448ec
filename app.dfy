/**
 * One evaluation of the page (streamlit_app.py:77-88, 100-140): look the
 * chemical up, solve the plume on the default 60 km domain, convert the
 * field to ppm, and build the threat summary and the distance cards.
 */
module App {
  import opened Wrappers
  import opened Catalog
  import opened Axes
  import opened Plume
  import opened Units
  import opened Extractor
  import opened Summary
  import opened Cards

  /** `x_max`'s default, the only value the page uses. */
  const DomainKm: real := 60.0

  /** The sidebar's inputs (lines 77-84). */
  datatype Scenario = Scenario(chemName: string, q: real, u: real, tempC: real, h: real, stability: string)

  /** What the slider ranges guarantee and the formulas need: wind above zero, temperature above absolute zero. */
  predicate Admissible(s: Scenario) {
    s.u > 0.0 && s.tempC > -KelvinOffset
  }

  /** What the page shows: the ppm field, the threat summary and the distance cards. */
  datatype Report = Report(field: seq<seq<real>>, summary: seq<ThreatEntry>, cards: seq<Card>)

  /** `X_km[0]`: the downwind axis in km. */
  function DownwindKm(): (xs: seq<real>)
    ensures |xs| == GridSize && xs[0] == 0.01 && xs[GridSize - 1] == DomainKm
    ensures StrictlyIncreasing(xs) && Ascending(xs)
  {
    var xs := AxisToKm(DownwindAxis(DomainKm));
    AxisToKmPreservesShape(DownwindAxis(DomainKm));
    DownwindAxisPositive(DomainKm);
    xs
  }

  /** `C_ppm` (line 88) for a well-formed chemical. */
  function PpmField(chem: Chemical, s: Scenario, exp: real -> real, pow: (real, real) -> real): (f: seq<seq<real>>)
    requires WellFormed(chem) && Admissible(s) && PositivePower(pow)
    ensures IsGrid(f, GridSize, GridSize) && Rectangular(f) && Width(f) == GridSize
  {
    var d := AdvancedGaussian(s.q, s.u, s.h, s.stability, DomainKm, exp, pow);
    FieldToPpm(d.c, chem.molwt, s.tempC)
  }

  /**
   * The page's computation. A name missing from the catalog (which the
   * select box never offers) gives no report.
   */
  method Assess(s: Scenario, exp: real -> real, pow: (real, real) -> real) returns (r: Option<Report>)
    requires Admissible(s) && PositivePower(pow)
    ensures r.None? <==> Lookup(s.chemName).None?
    ensures r.Some? ==>
              var chem := Lookup(s.chemName).value;
              && r.value.field == PpmField(chem, s, exp, pow)
              && r.value.summary == SummaryOf(Zones, chem, GlobalMax(r.value.field))
              && |r.value.cards| == |Labels|
              && forall i :: 0 <= i < |Labels| ==>
                   r.value.cards[i] == CardFor(Labels[i], Colors[i], chem, r.value.field, DownwindKm())
  {
    var found := Lookup(s.chemName);
    if found.None? {
      return None;
    }
    var chem := found.value;
    var d := AdvancedGaussian(s.q, s.u, s.h, s.stability, DomainKm, exp, pow);
    var ppm := FieldToPpm(d.c, chem.molwt, s.tempC);
    assert ppm == PpmField(chem, s, exp, pow);
    var summary := ThreatSummary(chem, ppm);
    var xs := d.xKm[0];
    assert xs == DownwindKm();
    var cards := DistanceCards(chem, ppm, xs, Labels, Colors);
    assert |cards| == |Labels|;
    r := Some(Report(ppm, summary, cards));
  }

  /**
   * A stronger release never shortens a reported threat distance, for any
   * level (with an exponential that is never negative).
   */
  lemma ThreatDistanceMonotoneInRate(chem: Chemical, s1: Scenario, s2: Scenario, level: real,
                                     exp: real -> real, pow: (real, real) -> real)
    requires WellFormed(chem) && Admissible(s1) && PositivePower(pow)
    requires s2 == s1.(q := s2.q) && s1.q <= s2.q
    requires forall t :: exp(t) >= 0.0
    ensures MaxDistance(PpmField(chem, s1, exp, pow), DownwindKm(), level)
         <= MaxDistance(PpmField(chem, s2, exp, pow), DownwindKm(), level)
  {
    var f1, f2 := PpmField(chem, s1, exp, pow), PpmField(chem, s2, exp, pow);
    var c1 := PlumeGrid(s1.q, s1.u, s1.h, s1.stability, DomainKm, exp, pow);
    var c2 := PlumeGrid(s2.q, s2.u, s2.h, s2.stability, DomainKm, exp, pow);
    PlumeGridMonotoneInRate(s1.q, s2.q, s1.u, s1.h, s1.stability, DomainKm, exp, pow);
    forall i, j | 0 <= i < GridSize && 0 <= j < GridSize ensures f1[i][j] <= f2[i][j] {
      ToPpmMonotone(c1[i][j], c2[i][j], chem.molwt, s1.tempC);
    }
    MaxDistanceMonotoneInField(f1, f2, DownwindKm(), level);
  }

  /** With a non-negative rate and exponential, every ppm cell is non-negative. */
  lemma PpmFieldNonNegative(chem: Chemical, s: Scenario, exp: real -> real, pow: (real, real) -> real)
    requires WellFormed(chem) && Admissible(s) && PositivePower(pow)
    requires s.q >= 0.0 && forall t :: exp(t) >= 0.0
    ensures forall i, j :: 0 <= i < GridSize && 0 <= j < GridSize ==> PpmField(chem, s, exp, pow)[i][j] >= 0.0
  {
    PlumeGridNonNegative(s.q, s.u, s.h, s.stability, DomainKm, exp, pow);
  }

  /** The ppm field is mirrored about the plume's centre line, row `i` against row `N-1-i`. */
  lemma PpmFieldMirrored(chem: Chemical, s: Scenario, exp: real -> real, pow: (real, real) -> real)
    requires WellFormed(chem) && Admissible(s) && PositivePower(pow)
    ensures forall i, j {:trigger PpmField(chem, s, exp, pow)[i][j]} ::
              0 <= i < GridSize && 0 <= j < GridSize ==>
              PpmField(chem, s, exp, pow)[i][j] == PpmField(chem, s, exp, pow)[GridSize - 1 - i][j]
  {
    var f := PpmField(chem, s, exp, pow);
    var c := PlumeGrid(s.q, s.u, s.h, s.stability, DomainKm, exp, pow);
    PlumeGridMirrored(s.q, s.u, s.h, s.stability, DomainKm, exp, pow);
    forall i, j {:trigger f[i][j]} | 0 <= i < GridSize && 0 <= j < GridSize
      ensures f[i][j] == f[GridSize - 1 - i][j]
    {
      assert c[i][j] == c[GridSize - 1 - i][j];
    }
  }

  /** Every distance the page reports lies between 0 and the domain's 60 km. */
  lemma ReportedDistanceInDomain(field: seq<seq<real>>, level: real)
    requires Rectangular(field) && Width(field) == GridSize
    ensures 0.0 <= MaxDistance(field, DownwindKm(), level) <= DomainKm
  {
    var xs := DownwindKm();
    MaxDistanceOnAxis(field, xs, level);
    if MaxDistance(field, xs, level) != 0.0 {
      var j :| 0 <= j < |xs| && xs[j] == MaxDistance(field, xs, level);
      assert xs[j] <= xs[GridSize - 1];
    }
  }
}
