/**
 * The fixed chemical catalog `CHEMICALS` (streamlit_app.py:23-64) and the
 * way a threshold value is scaled before it is compared with a ppm field
 * (streamlit_app.py:105, 135).
 *
 * Each chemical has a molecular weight and some of five hazard thresholds:
 * IDLH and ERPG-1/2/3 in ppm, and LEL (lower explosive limit) in volume
 * percent. The catalog is never changed after it is built.
 */
module Catalog {
  import opened Wrappers

  /** A chemical's record: `molwt` plus the hazard keys it defines. */
  datatype Chemical = Chemical(molwt: real, thresholds: map<string, real>)

  /** One `name: record` pair of the catalog. */
  datatype Entry = Entry(name: string, chem: Chemical)

  /** The only hazard keys a record may carry besides `molwt`. */
  const HazardKeys: set<string> := {"ERPG3", "ERPG2", "ERPG1", "IDLH", "LEL"}

  /** What every record of the catalog satisfies. */
  predicate WellFormed(c: Chemical) {
    && c.molwt > 0.0
    && c.thresholds.Keys <= HazardKeys
    && ("IDLH" in c.thresholds || "LEL" in c.thresholds)
    && (forall k :: k in c.thresholds ==> c.thresholds[k] > 0.0)
  }

  /**
   * The table, in the order the source lists it. It is declared in eight
   * consecutive parts of five records so that each part is checked on its own.
   */
  const Chemicals: seq<Entry> :=
    Part0 + Part1 + Part2 + Part3 + Part4 + Part5 + Part6 + Part7

  const Part0: seq<Entry> := [
      Entry("Ammonia (NH3)", Chemical(17.03, map["IDLH" := 300.0, "ERPG1" := 25.0, "ERPG2" := 200.0, "ERPG3" := 1000.0])),
      Entry("Chlorine (Cl2)", Chemical(70.90, map["IDLH" := 10.0, "ERPG1" := 1.0, "ERPG2" := 3.0, "ERPG3" := 20.0])),
      Entry("Hydrogen Sulfide (H2S)", Chemical(34.08, map["IDLH" := 100.0, "ERPG1" := 0.5, "ERPG2" := 30.0, "ERPG3" := 100.0])),
      Entry("Sulfur Dioxide (SO2)", Chemical(64.06, map["IDLH" := 100.0, "ERPG1" := 0.3, "ERPG2" := 15.0, "ERPG3" := 75.0])),
      Entry("Hydrogen Fluoride (HF)", Chemical(20.01, map["IDLH" := 30.0, "ERPG1" := 5.0, "ERPG2" := 20.0, "ERPG3" := 50.0]))
    ]

  const Part1: seq<Entry> := [
      Entry("Hydrogen Chloride (HCl)", Chemical(36.46, map["IDLH" := 50.0, "ERPG1" := 3.0, "ERPG2" := 20.0, "ERPG3" := 150.0])),
      Entry("Phosgene", Chemical(98.92, map["IDLH" := 2.0, "ERPG1" := 0.2, "ERPG2" := 0.5, "ERPG3" := 1.0])),
      Entry("Methyl Isocyanate", Chemical(57.05, map["IDLH" := 3.0, "ERPG1" := 0.2, "ERPG2" := 1.0, "ERPG3" := 5.0])),
      Entry("Hydrogen Cyanide", Chemical(27.03, map["IDLH" := 50.0, "ERPG1" := 10.0, "ERPG2" := 20.0, "ERPG3" := 50.0])),
      Entry("Bromine", Chemical(159.8, map["IDLH" := 3.0, "ERPG1" := 0.1, "ERPG2" := 0.5, "ERPG3" := 5.0]))
    ]

  const Part2: seq<Entry> := [
      Entry("Acrylonitrile", Chemical(53.06, map["IDLH" := 85.0, "ERPG1" := 10.0, "ERPG2" := 35.0, "ERPG3" := 75.0])),
      Entry("Ethylene Oxide", Chemical(44.05, map["IDLH" := 800.0, "ERPG1" := 5.0, "ERPG2" := 50.0, "ERPG3" := 500.0])),
      Entry("Formaldehyde", Chemical(30.03, map["IDLH" := 20.0, "ERPG1" := 1.0, "ERPG2" := 10.0, "ERPG3" := 25.0])),
      Entry("Carbon Monoxide", Chemical(28.01, map["IDLH" := 1200.0, "ERPG1" := 200.0, "ERPG2" := 350.0, "ERPG3" := 500.0])),
      Entry("Methanol", Chemical(32.04, map["IDLH" := 6000.0, "ERPG1" := 200.0, "ERPG2" := 1000.0, "ERPG3" := 5000.0]))
    ]

  const Part3: seq<Entry> := [
      Entry("Benzene", Chemical(78.11, map["IDLH" := 500.0, "ERPG1" := 50.0, "ERPG2" := 150.0, "ERPG3" := 1000.0])),
      Entry("Toluene", Chemical(92.14, map["IDLH" := 500.0, "ERPG1" := 50.0, "ERPG2" := 300.0, "ERPG3" := 1000.0])),
      Entry("Phosphine", Chemical(34.00, map["IDLH" := 50.0, "ERPG1" := 0.3, "ERPG2" := 2.0, "ERPG3" := 10.0])),
      Entry("Methane", Chemical(16.04, map["LEL" := 5.0])),
      Entry("Propane", Chemical(44.10, map["LEL" := 2.1]))
    ]

  const Part4: seq<Entry> := [
      Entry("Butane", Chemical(58.12, map["LEL" := 1.8])),
      Entry("Hydrogen", Chemical(2.02, map["LEL" := 4.0])),
      Entry("LPG", Chemical(48.0, map["LEL" := 2.0])),
      Entry("LNG", Chemical(17.0, map["LEL" := 5.0])),
      Entry("Acetone", Chemical(58.08, map["LEL" := 2.5]))
    ]

  const Part5: seq<Entry> := [
      Entry("Ethanol", Chemical(46.07, map["IDLH" := 3300.0, "ERPG1" := 100.0, "ERPG2" := 500.0, "ERPG3" := 2500.0])),
      Entry("Nitric Acid", Chemical(63.01, map["IDLH" := 25.0])),
      Entry("Sulfuric Acid", Chemical(98.08, map["IDLH" := 15.0])),
      Entry("Oleum", Chemical(80.06, map["IDLH" := 10.0])),
      Entry("Aniline", Chemical(93.13, map["IDLH" := 100.0]))
    ]

  const Part6: seq<Entry> := [
      Entry("Carbon Disulfide", Chemical(76.14, map["IDLH" := 500.0, "ERPG1" := 10.0, "ERPG2" := 50.0, "ERPG3" := 200.0])),
      Entry("Acrolein", Chemical(56.06, map["IDLH" := 2.0, "ERPG1" := 0.1, "ERPG2" := 0.5, "ERPG3" := 3.0])),
      Entry("Vinyl Chloride", Chemical(62.50, map["IDLH" := 1000.0, "ERPG1" := 10.0, "ERPG2" := 50.0, "ERPG3" := 500.0])),
      Entry("Styrene", Chemical(104.15, map["IDLH" := 700.0, "ERPG1" := 20.0, "ERPG2" := 100.0, "ERPG3" := 500.0])),
      Entry("Hydrazine", Chemical(32.05, map["IDLH" := 50.0, "ERPG1" := 0.5, "ERPG2" := 3.0, "ERPG3" := 30.0]))
    ]

  const Part7: seq<Entry> := [
      Entry("Chloroform", Chemical(119.38, map["IDLH" := 500.0])),
      Entry("Dichloromethane", Chemical(84.93, map["IDLH" := 2300.0])),
      Entry("Arsine", Chemical(77.95, map["IDLH" := 3.0])),
      Entry("Fluorine", Chemical(38.00, map["IDLH" := 25.0])),
      Entry("Nitrogen Dioxide", Chemical(46.01, map["IDLH" := 20.0, "ERPG1" := 1.0, "ERPG2" := 15.0, "ERPG3" := 30.0]))
    ]

  /** First record named `name` in `entries`, if any. */
  function LookupIn(entries: seq<Entry>, name: string): (r: Option<Chemical>)
    ensures r.Some? <==> exists i :: 0 <= i < |entries| && entries[i].name == name
    ensures r.Some? ==> exists i :: 0 <= i < |entries| && entries[i] == Entry(name, r.value)
  {
    if |entries| == 0 then None
    else if entries[0].name == name then Some(entries[0].chem)
    else
      LookupIn(entries[1..], name)
  }

  /** `CHEMICALS[name]`: the record of a catalog chemical. */
  function Lookup(name: string): (r: Option<Chemical>)
    ensures r.Some? <==> exists i :: 0 <= i < |Chemicals| && Chemicals[i].name == name
    ensures r.Some? ==> WellFormed(r.value)
  {
    CatalogWellFormed();
    LookupIn(Chemicals, name)
  }

  /** Every catalog record has a positive molecular weight and an IDLH or an LEL. */
  lemma CatalogWellFormed()
    ensures forall i :: 0 <= i < |Chemicals| ==> WellFormed(Chemicals[i].chem)
  {
    PartWellFormed0();
    PartWellFormed1();
    PartWellFormed2();
    PartWellFormed3();
    PartWellFormed4();
    PartWellFormed5();
    PartWellFormed6();
    PartWellFormed7();
    forall i | 0 <= i < |Chemicals| ensures WellFormed(Chemicals[i].chem) {
      assert Chemicals[i] in Chemicals;
    }
  }

  // One lemma per part of the table: checking all forty records in one proof
  // costs the solver far more than checking eight parts of five.
  lemma PartWellFormed0()
    ensures forall e :: e in Part0 ==> WellFormed(e.chem)
  {
  }

  lemma PartWellFormed1()
    ensures forall e :: e in Part1 ==> WellFormed(e.chem)
  {
  }

  lemma PartWellFormed2()
    ensures forall e :: e in Part2 ==> WellFormed(e.chem)
  {
  }

  lemma PartWellFormed3()
    ensures forall e :: e in Part3 ==> WellFormed(e.chem)
  {
  }

  lemma PartWellFormed4()
    ensures forall e :: e in Part4 ==> WellFormed(e.chem)
  {
  }

  lemma PartWellFormed5()
    ensures forall e :: e in Part5 ==> WellFormed(e.chem)
  {
  }

  lemma PartWellFormed6()
    ensures forall e :: e in Part6 ==> WellFormed(e.chem)
  {
  }

  lemma PartWellFormed7()
    ensures forall e :: e in Part7 ==> WellFormed(e.chem)
  {
  }

  /**
   * The value a threshold is compared with: LEL is a volume percent and is
   * multiplied by 10000 to give ppm; every other key is already in ppm.
   */
  function ComparisonLevel(key: string, value: real): (level: real)
    ensures key == "LEL" ==> level == value * 10000.0
    ensures key != "LEL" ==> level == value
  {
    value * (if key == "LEL" then 10000.0 else 1.0)
  }
}
