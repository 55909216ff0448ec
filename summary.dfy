/**
 * The "Threat Zones" summary (streamlit_app.py:100-109): walk the fixed
 * zone list in order and keep each hazard key that the chemical defines and
 * whose scaled level the field's peak reaches at least 40 % of.
 */
module Summary {
  import opened Catalog
  import opened Extractor

  /** One `(key, color, width)` triple of the zone list. */
  datatype Zone = Zone(key: string, color: string, width: nat)

  /** The zone list of line 100, in its order. */
  const Zones: seq<Zone> := [
    Zone("ERPG3", "red", 6), Zone("ERPG2", "orange", 5), Zone("ERPG1", "yellow", 4),
    Zone("IDLH", "crimson", 5), Zone("LEL", "magenta", 6)
  ]

  /** A line of the summary: the key, its color, the threshold as listed, and its unit. */
  datatype ThreatEntry = ThreatEntry(key: string, color: string, value: real, unit: string)

  /** The fraction of a level the peak must reach for the zone to be shown. */
  const DisplayFraction: real := 0.4

  /** LEL is listed in percent, every other key in ppm. */
  function UnitOf(key: string): (u: string)
    ensures u == "%" <==> key == "LEL"
    ensures key != "LEL" ==> u == "ppm"
  {
    if key == "LEL" then "%" else "ppm"
  }

  /** The chemical defines the zone's key and the peak reaches 40 % of its level. */
  predicate Shown(chem: Chemical, z: Zone, peak: real) {
    z.key in chem.thresholds
    && peak >= ComparisonLevel(z.key, chem.thresholds[z.key]) * DisplayFraction
  }

  function EntryFor(chem: Chemical, z: Zone): ThreatEntry
    requires z.key in chem.thresholds
  {
    ThreatEntry(z.key, z.color, chem.thresholds[z.key], UnitOf(z.key))
  }

  /** The summary produced by walking `zones` from first to last. */
  function SummaryOf(zones: seq<Zone>, chem: Chemical, peak: real): (info: seq<ThreatEntry>)
    ensures |info| <= |zones|
  {
    if |zones| == 0 then []
    else
      var z := zones[|zones| - 1];
      SummaryOf(zones[..|zones| - 1], chem, peak) + (if Shown(chem, z, peak) then [EntryFor(chem, z)] else [])
  }

  /** The loop of lines 103-109, appending one entry per shown zone. */
  method ThreatSummary(chem: Chemical, field: seq<seq<real>>) returns (info: seq<ThreatEntry>)
    requires Rectangular(field) && Width(field) > 0
    ensures info == SummaryOf(Zones, chem, GlobalMax(field))
  {
    info := [];
    for k := 0 to |Zones|
      invariant info == SummaryOf(Zones[..k], chem, GlobalMax(field))
    {
      var z := Zones[k];
      assert Zones[..k + 1][..k] == Zones[..k];
      if z.key in chem.thresholds {
        var level := ComparisonLevel(z.key, chem.thresholds[z.key]);
        if GlobalMax(field) >= level * DisplayFraction {
          info := info + [ThreatEntry(z.key, z.color, chem.thresholds[z.key], UnitOf(z.key))];
        }
      }
    }
    assert Zones[..|Zones|] == Zones;
  }

  function KeysOf(zones: seq<Zone>): (ks: seq<string>)
    ensures |ks| == |zones| && forall i :: 0 <= i < |zones| ==> ks[i] == zones[i].key
  {
    seq(|zones|, i requires 0 <= i < |zones| => zones[i].key)
  }

  function EntryKeys(entries: seq<ThreatEntry>): (ks: seq<string>)
    ensures |ks| == |entries| && forall i :: 0 <= i < |entries| ==> ks[i] == entries[i].key
  {
    seq(|entries|, i requires 0 <= i < |entries| => entries[i].key)
  }

  /** No key occurs twice. */
  predicate Distinct(ks: seq<string>) {
    forall i, j :: 0 <= i < j < |ks| ==> ks[i] != ks[j]
  }

  /** Position of the first occurrence of `k`. */
  function IndexOf(ks: seq<string>, k: string): (i: nat)
    requires k in ks
    ensures i < |ks| && ks[i] == k && k !in ks[..i]
  {
    if ks[0] == k then 0 else 1 + IndexOf(ks[1..], k)
  }

  /**
   * Every entry comes from a shown zone with the chemical's listed value
   * and the right unit, and every shown zone yields an entry.
   */
  lemma {:induction false} SummaryEntries(zones: seq<Zone>, chem: Chemical, peak: real)
    ensures forall e :: e in SummaryOf(zones, chem, peak) ==>
              exists z :: z in zones && Shown(chem, z, peak) && e == EntryFor(chem, z)
    ensures forall z :: z in zones && Shown(chem, z, peak) ==> EntryFor(chem, z) in SummaryOf(zones, chem, peak)
  {
    if |zones| > 0 {
      var init := zones[..|zones| - 1];
      SummaryEntries(init, chem, peak);
      assert zones == init + [zones[|zones| - 1]];
    }
  }

  /**
   * Key `k` appears in the summary exactly when it is one of the zone keys,
   * the chemical defines it, and the peak reaches 40 % of its scaled level.
   */
  lemma SummaryKeyIff(chem: Chemical, peak: real, k: string)
    ensures k in EntryKeys(SummaryOf(Zones, chem, peak))
        <==> k in KeysOf(Zones) && k in chem.thresholds
             && peak >= ComparisonLevel(k, chem.thresholds[k]) * DisplayFraction
  {
    var r := SummaryOf(Zones, chem, peak);
    SummaryEntries(Zones, chem, peak);
    if k in EntryKeys(r) {
      var a := IndexOf(EntryKeys(r), k);
      assert r[a] in r;
      var z :| z in Zones && Shown(chem, z, peak) && r[a] == EntryFor(chem, z);
      var i :| 0 <= i < |Zones| && Zones[i] == z;
      assert KeysOf(Zones)[i] == k;
    }
    if k in KeysOf(Zones) && k in chem.thresholds
       && peak >= ComparisonLevel(k, chem.thresholds[k]) * DisplayFraction {
      var i := IndexOf(KeysOf(Zones), k);
      assert Zones[i] in Zones && Shown(chem, Zones[i], peak);
      var e := EntryFor(chem, Zones[i]);
      assert e in r;
      var a :| 0 <= a < |r| && r[a] == e;
      assert EntryKeys(r)[a] == k;
    }
  }

  /** Entries keep the order of the zone list. */
  lemma {:induction false} SummaryKeepsOrder(zones: seq<Zone>, chem: Chemical, peak: real)
    requires Distinct(KeysOf(zones))
    ensures forall e :: e in SummaryOf(zones, chem, peak) ==> e.key in KeysOf(zones)
    ensures forall a, b :: 0 <= a < b < |SummaryOf(zones, chem, peak)| ==>
              IndexOf(KeysOf(zones), SummaryOf(zones, chem, peak)[a].key)
              < IndexOf(KeysOf(zones), SummaryOf(zones, chem, peak)[b].key)
  {
    if |zones| > 0 {
      var n := |zones| - 1;
      var init := zones[..n];
      var z := zones[n];
      var ks, ks0 := KeysOf(zones), KeysOf(init);
      assert ks0 == ks[..n];
      assert Distinct(ks0);
      SummaryKeepsOrder(init, chem, peak);
      var r0 := SummaryOf(init, chem, peak);
      var r := SummaryOf(zones, chem, peak);
      // Keys already in the prefix keep their position in the longer list.
      forall k | k in ks0 ensures k in ks && IndexOf(ks, k) == IndexOf(ks0, k) {
        IndexOfPrefix(ks, n, k);
      }
      assert IndexOf(ks, z.key) == n by {
        assert ks[n] == z.key;
      }
      forall e | e in r ensures e.key in ks {
        if e !in r0 {
          assert e == EntryFor(chem, z);
        }
      }
      forall a, b | 0 <= a < b < |r| ensures IndexOf(ks, r[a].key) < IndexOf(ks, r[b].key) {
        assert r[a] == r0[a];
        assert r0[a] in r0;
        if b < |r0| {
          assert r[b] == r0[b];
          assert r0[b] in r0;
        } else {
          assert r[b].key == z.key;
        }
      }
    }
  }

  /** The first occurrence of a key found in a prefix is the same in the whole list. */
  lemma {:induction false} IndexOfPrefix(ks: seq<string>, n: nat, k: string)
    requires n <= |ks| && k in ks[..n]
    ensures k in ks && IndexOf(ks, k) == IndexOf(ks[..n], k)
  {
    if ks[0] != k {
      assert ks[1..][..n - 1] == ks[..n][1..];
      IndexOfPrefix(ks[1..], n - 1, k);
    }
  }

  /** The zone list has five distinct keys, exactly the catalog's hazard keys. */
  lemma ZonesWellFormed()
    ensures Distinct(KeysOf(Zones))
    ensures forall k :: k in KeysOf(Zones) <==> k in HazardKeys
  {
    assert KeysOf(Zones) == ["ERPG3", "ERPG2", "ERPG1", "IDLH", "LEL"];
  }

  /** The summary of the real zone list is in zone-list order. */
  lemma SummaryInZoneOrder(chem: Chemical, peak: real)
    ensures forall e :: e in SummaryOf(Zones, chem, peak) ==> e.key in KeysOf(Zones)
    ensures forall a, b :: 0 <= a < b < |SummaryOf(Zones, chem, peak)| ==>
              IndexOf(KeysOf(Zones), SummaryOf(Zones, chem, peak)[a].key)
              < IndexOf(KeysOf(Zones), SummaryOf(Zones, chem, peak)[b].key)
  {
    ZonesWellFormed();
    SummaryKeepsOrder(Zones, chem, peak);
  }
}
