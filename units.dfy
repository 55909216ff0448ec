/**
 * The ppm conversion of streamlit_app.py:88: the ideal-gas molar-volume
 * factor 24.45 / molwt (24.45 L/mol at 25 degC and 1 atm), corrected to the
 * ambient temperature by 298.15 / (T + 273.15).
 *
 * That factor turns mg/m^3 into ppm by volume, while the plume field it is
 * applied to is in g/m^3, so the values the page labels ppm are 1000 times
 * below the ppm of the field. The model reproduces line 88 as written.
 */
module Units {

  const MolarVolume: real := 24.45
  const ReferenceKelvin: real := 298.15
  const KelvinOffset: real := 273.15

  /** The conversion is defined for a positive weight above absolute zero. */
  predicate ValidGas(molwt: real, tempC: real) {
    molwt > 0.0 && tempC > -KelvinOffset
  }

  /** `c * MolarVolume / molwt`, scaled by `ReferenceKelvin / (tempC + KelvinOffset)`. */
  function ToPpm(c: real, molwt: real, tempC: real): (ppm: real)
    requires ValidGas(molwt, tempC)
    ensures ppm * molwt * (tempC + KelvinOffset) == c * MolarVolume * ReferenceKelvin
    ensures c >= 0.0 ==> ppm >= 0.0
    ensures c > 0.0 ==> ppm > 0.0
  {
    var k := ReferenceKelvin / (tempC + KelvinOffset);
    var ppm := c * MolarVolume / molwt * k;
    assert ppm * molwt * (tempC + KelvinOffset) == c * MolarVolume * ReferenceKelvin by {
      assert k * (tempC + KelvinOffset) == ReferenceKelvin;
      assert (c * MolarVolume / molwt) * molwt == c * MolarVolume;
    }
    ppm
  }

  /** Back from the converted value to the input concentration, under the same weight and temperature. */
  function FromPpm(ppm: real, molwt: real, tempC: real): (c: real)
    requires ValidGas(molwt, tempC)
    ensures c * MolarVolume * ReferenceKelvin == ppm * molwt * (tempC + KelvinOffset)
  {
    ppm * molwt * (tempC + KelvinOffset) / (MolarVolume * ReferenceKelvin)
  }

  /** Converting to ppm and back gives the mass concentration again, and conversely. */
  lemma PpmRoundTrip(c: real, ppm: real, molwt: real, tempC: real)
    requires ValidGas(molwt, tempC)
    ensures FromPpm(ToPpm(c, molwt, tempC), molwt, tempC) == c
    ensures ToPpm(FromPpm(ppm, molwt, tempC), molwt, tempC) == ppm
  {
    var p := ToPpm(c, molwt, tempC);
    var back := FromPpm(p, molwt, tempC);
    assert back * MolarVolume * ReferenceKelvin == c * MolarVolume * ReferenceKelvin;
    var c2 := FromPpm(ppm, molwt, tempC);
    var p2 := ToPpm(c2, molwt, tempC);
    assert p2 * molwt * (tempC + KelvinOffset) == ppm * molwt * (tempC + KelvinOffset);
    assert molwt * (tempC + KelvinOffset) > 0.0;
    assert p2 == ppm by {
      var w := molwt * (tempC + KelvinOffset);
      assert p2 * w == ppm * w;
    }
  }

  /** The conversion is linear in the mass concentration. */
  lemma ToPpmLinear(a: real, b: real, c1: real, c2: real, molwt: real, tempC: real)
    requires ValidGas(molwt, tempC)
    ensures ToPpm(a * c1 + b * c2, molwt, tempC)
         == a * ToPpm(c1, molwt, tempC) + b * ToPpm(c2, molwt, tempC)
  {
    var w := molwt * (tempC + KelvinOffset);
    var k := MolarVolume * ReferenceKelvin;
    var p1, p2 := ToPpm(c1, molwt, tempC), ToPpm(c2, molwt, tempC);
    var p := ToPpm(a * c1 + b * c2, molwt, tempC);
    assert w > 0.0;
    assert p * w == (a * c1 + b * c2) * k;
    assert (a * p1 + b * p2) * w == a * (p1 * w) + b * (p2 * w);
    assert p1 * w == c1 * k && p2 * w == c2 * k;
    assert (a * p1 + b * p2) * w == (a * c1 + b * c2) * k;
  }

  /** A larger mass concentration never gives a smaller ppm value. */
  lemma ToPpmMonotone(c1: real, c2: real, molwt: real, tempC: real)
    requires ValidGas(molwt, tempC) && c1 <= c2
    ensures ToPpm(c1, molwt, tempC) <= ToPpm(c2, molwt, tempC)
  {
    ToPpmLinear(1.0, -1.0, c2, c1, molwt, tempC);
  }

  /** At the reference temperature the correction factor is exactly one. */
  lemma ToPpmAtReference(c: real, molwt: real)
    requires molwt > 0.0
    ensures ToPpm(c, molwt, 25.0) == c * MolarVolume / molwt
  {
  }

  /** The numpy broadcast of the conversion over a whole field. */
  function FieldToPpm(field: seq<seq<real>>, molwt: real, tempC: real): (ppm: seq<seq<real>>)
    requires ValidGas(molwt, tempC)
    ensures |ppm| == |field|
    ensures forall i :: 0 <= i < |field| ==> |ppm[i]| == |field[i]|
    ensures forall i, j :: 0 <= i < |field| && 0 <= j < |field[i]| ==>
              ppm[i][j] * molwt * (tempC + KelvinOffset) == field[i][j] * MolarVolume * ReferenceKelvin
    ensures forall i, j :: 0 <= i < |field| && 0 <= j < |field[i]| && field[i][j] >= 0.0 ==>
              ppm[i][j] >= 0.0
  {
    seq(|field|, i requires 0 <= i < |field| =>
      seq(|field[i]|, j requires 0 <= j < |field[i]| => ToPpm(field[i][j], molwt, tempC)))
  }
}
