/**
 * Pasquill stability classes and the two dispersion-growth coefficients
 * that `advanced_gaussian` looks up for them (streamlit_app.py:70-71).
 *
 * The application passes the class as a string. Both lookups use
 * `dict.get(stability, default)`, so any string that is not one of the six
 * class letters silently receives class D's coefficients.
 */
module Stability {

  /** The six class letters, from most unstable (A) to most stable (F). */
  const Classes: seq<string> := ["A", "B", "C", "D", "E", "F"]

  /** Horizontal (crosswind) growth coefficients, the table at line 70. */
  const SigmaYTable: map<string, real> :=
    map["A" := 0.22, "B" := 0.16, "C" := 0.11, "D" := 0.08, "E" := 0.06, "F" := 0.04]

  /** Vertical growth coefficients, the table at line 71. */
  const SigmaZTable: map<string, real> :=
    map["A" := 0.20, "B" := 0.12, "C" := 0.08, "D" := 0.06, "E" := 0.03, "F" := 0.02]

  /** Class D's pair, which every unknown class falls back to. */
  const DefaultSigmaY: real := 0.08
  const DefaultSigmaZ: real := 0.06

  /** `dict.get(cls, 0.08)` on the horizontal table. */
  function SigmaYCoefficient(cls: string): (r: real)
    ensures r > 0.0
    ensures cls !in SigmaYTable ==> r == SigmaYTable["D"]
    ensures cls in SigmaYTable ==> r == SigmaYTable[cls]
  {
    if cls in SigmaYTable then SigmaYTable[cls] else DefaultSigmaY
  }

  /** `dict.get(cls, 0.06)` on the vertical table. */
  function SigmaZCoefficient(cls: string): (r: real)
    ensures r > 0.0
    ensures cls !in SigmaZTable ==> r == SigmaZTable["D"]
    ensures cls in SigmaZTable ==> r == SigmaZTable[cls]
  {
    if cls in SigmaZTable then SigmaZTable[cls] else DefaultSigmaZ
  }

  /** The (sigma-y, sigma-z) pair for a class string. */
  function Coefficients(cls: string): (r: (real, real))
    ensures r.0 > 0.0 && r.1 > 0.0
    ensures cls !in Classes ==> r == (0.08, 0.06)
  {
    (SigmaYCoefficient(cls), SigmaZCoefficient(cls))
  }

  /** Both tables are keyed by exactly the six class letters. */
  lemma TablesCoverClasses()
    ensures forall c :: c in SigmaYTable <==> c in Classes
    ensures forall c :: c in SigmaZTable <==> c in Classes
  {
  }

  /** The listed pair for every class letter. */
  lemma ListedCoefficients()
    ensures Coefficients("A") == (0.22, 0.20)
    ensures Coefficients("B") == (0.16, 0.12)
    ensures Coefficients("C") == (0.11, 0.08)
    ensures Coefficients("D") == (0.08, 0.06)
    ensures Coefficients("E") == (0.06, 0.03)
    ensures Coefficients("F") == (0.04, 0.02)
  {
  }

  /**
   * Both coefficients fall strictly from the most unstable class to the
   * most stable one: a more stable atmosphere spreads the plume less.
   */
  lemma CoefficientsDecreaseWithStability(i: nat, j: nat)
    requires i < j < |Classes|
    ensures Coefficients(Classes[j]).0 < Coefficients(Classes[i]).0
    ensures Coefficients(Classes[j]).1 < Coefficients(Classes[i]).1
  {
  }
}
