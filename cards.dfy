/**
 * The "Maximum Threat Distances" cards (streamlit_app.py:130-140): one card
 * per label; the label is mapped to a catalog key, and the card shows the
 * maximum threat distance for that key or "N/A" when the chemical does not
 * define it.
 */
module Cards {
  import opened Catalog
  import opened Extractor

  /** The five card labels of line 132, in order, and their colors. */
  const Labels: seq<string> := ["ERPG-3", "ERPG-2", "ERPG-1", "IDLH", "LEL"]
  const Colors: seq<string> := ["red", "orange", "yellow", "crimson", "magenta"]

  /** Python's `sub in s` on strings. */
  predicate Contains(s: string, sub: string)
    decreases |s|
  {
    sub <= s || (|s| > 0 && Contains(s[1..], sub))
  }

  /** `sub` occurs in `s` starting at offset `i`. */
  predicate OccursAt(s: string, sub: string, i: nat) {
    i + |sub| <= |s| && s[i..i + |sub|] == sub
  }

  /** `Contains` is substring search: `sub` occurs at some offset of `s`. */
  lemma {:induction false} ContainsIff(s: string, sub: string)
    ensures Contains(s, sub) <==> exists i: nat :: OccursAt(s, sub, i)
    decreases |s|
  {
    if sub <= s {
      assert OccursAt(s, sub, 0);
    } else if |s| > 0 {
      ContainsIff(s[1..], sub);
      if Contains(s[1..], sub) {
        var i: nat :| OccursAt(s[1..], sub, i);
        assert s[i + 1..i + 1 + |sub|] == s[1..][i..i + |sub|];
        assert OccursAt(s, sub, i + 1);
      }
      if exists i: nat :: OccursAt(s, sub, i) {
        var i: nat :| OccursAt(s, sub, i);
        if i > 0 {
          assert s[1..][i - 1..i - 1 + |sub|] == s[i..i + |sub|];
          assert OccursAt(s[1..], sub, i - 1);
        }
      }
    }
  }

  /** `s.replace(c, "")` for a one-character `c`. */
  function RemoveChar(s: string, c: char): (r: string)
    ensures c !in r
    ensures c !in s ==> r == s
    ensures |s| == 1 ==> r == (if s[0] == c then [] else s)
  {
    if |s| == 0 then ""
    else if s[0] == c then RemoveChar(s[1..], c)
    else [s[0]] + RemoveChar(s[1..], c)
  }

  /** Line 133: the dash is dropped from ERPG labels; other labels are keys already. */
  function CardKey(name: string): (key: string)
    ensures !Contains(name, "ERPG") ==> key == name
    ensures '-' !in name ==> key == name
  {
    if Contains(name, "ERPG") then RemoveChar(name, '-') else name
  }

  /** A card: a distance in km, or "N/A". */
  datatype Card =
    | Distance(name: string, color: string, km: real)
    | NotApplicable(name: string)

  /** The card for one label `name` (lines 133-140). */
  function CardFor(name: string, color: string, chem: Chemical,
                   field: seq<seq<real>>, xs: seq<real>): (card: Card)
    requires Rectangular(field) && |xs| == Width(field)
    ensures card.name == name
    ensures card.NotApplicable? <==> CardKey(name) !in chem.thresholds
    ensures card.Distance? ==> card.color == color && (card.km == 0.0 || card.km in xs)
  {
    var key := CardKey(name);
    if key in chem.thresholds
    then Distance(name, color, MaxDistance(field, xs, ComparisonLevel(key, chem.thresholds[key])))
    else NotApplicable(name)
  }

  /**
   * The loop of lines 132-140 over `zip(names, colors)` (the application
   * passes `Labels` and `Colors`), `X_km[0]` (`xs`) and the ppm field: one
   * card per label, "N/A" exactly when the mapped key is missing.
   */
  method DistanceCards(chem: Chemical, field: seq<seq<real>>, xs: seq<real>,
                       names: seq<string>, colors: seq<string>) returns (cards: seq<Card>)
    requires Rectangular(field) && |xs| == Width(field)
    ensures |cards| == if |names| < |colors| then |names| else |colors|
    ensures forall i :: 0 <= i < |cards| ==> cards[i] == CardFor(names[i], colors[i], chem, field, xs)
    ensures forall i :: 0 <= i < |cards| ==> cards[i].name == names[i]
    ensures forall i :: 0 <= i < |cards| ==>
              (cards[i].NotApplicable? <==> CardKey(names[i]) !in chem.thresholds)
    ensures forall i :: 0 <= i < |cards| && cards[i].Distance? ==>
              cards[i].color == colors[i]
              && cards[i].km == MaxDistance(field, xs, ComparisonLevel(CardKey(names[i]), chem.thresholds[CardKey(names[i])]))
  {
    var count := if |names| < |colors| then |names| else |colors|;
    cards := [];
    for n := 0 to count
      invariant |cards| == n
      invariant forall i :: 0 <= i < n ==> cards[i] == CardFor(names[i], colors[i], chem, field, xs)
    {
      var name, color := names[n], colors[n];
      var key := CardKey(name);
      var card;
      if key in chem.thresholds {
        var level := ComparisonLevel(key, chem.thresholds[key]);
        var dist := MaxThreatDistance(field, xs, level);
        card := Distance(name, color, dist);
      } else {
        card := NotApplicable(name);
      }
      cards := cards + [card];
    }
  }

  /** Labels "ERPG-3/2/1" map to keys "ERPG3/2/1"; "IDLH" and "LEL" map to themselves. */
  lemma CardKeys()
    ensures CardKey("ERPG-3") == "ERPG3"
    ensures CardKey("ERPG-2") == "ERPG2"
    ensures CardKey("ERPG-1") == "ERPG1"
    ensures CardKey("IDLH") == "IDLH"
    ensures CardKey("LEL") == "LEL"
  {
    ErpgThreeKey();
    ErpgTwoKey();
    ErpgOneKey();
  }

  // One label per lemma: proving the three together is much costlier for the solver.
  lemma ErpgThreeKey()
    ensures CardKey("ERPG-3") == "ERPG3"
  {
    ErpgCardKey('3');
    assert "ERPG-3" == "ERPG-" + ['3'];
  }

  lemma ErpgTwoKey()
    ensures CardKey("ERPG-2") == "ERPG2"
  {
    ErpgCardKey('2');
    assert "ERPG-2" == "ERPG-" + ['2'];
  }

  lemma ErpgOneKey()
    ensures CardKey("ERPG-1") == "ERPG1"
  {
    ErpgCardKey('1');
    assert "ERPG-1" == "ERPG-" + ['1'];
  }

  /** Removing a character from a concatenation removes it from each part. */
  lemma {:induction false} RemoveCharConcat(a: string, b: string, c: char)
    ensures RemoveChar(a + b, c) == RemoveChar(a, c) + RemoveChar(b, c)
  {
    if |a| == 0 {
      assert a + b == b;
    } else {
      assert (a + b)[0] == a[0];
      assert (a + b)[1..] == a[1..] + b;
      RemoveCharConcat(a[1..], b, c);
    }
  }

  /** "ERPG-" followed by one more character maps to "ERPG" and that character. */
  lemma ErpgCardKey(d: char)
    requires d != '-'
    ensures CardKey("ERPG-" + [d]) == "ERPG" + [d]
  {
    var name := "ERPG-" + [d];
    assert "ERPG" <= name;
    assert CardKey(name) == RemoveChar(name, '-');
    assert name == "ERPG" + ("-" + [d]);
    RemoveCharConcat("ERPG", "-" + [d], '-');
    RemoveCharConcat("-", [d], '-');
    assert RemoveChar("ERPG", '-') == "ERPG";
    assert RemoveChar("-", '-') == "";
    assert RemoveChar([d], '-') == [d];
  }

  /**
   * A chemical that defines only LEL (methane, propane, ...) gets "N/A" on
   * the three ERPG cards and the IDLH card ...
   */
  lemma LelOnlyNotApplicable(chem: Chemical, field: seq<seq<real>>, xs: seq<real>, i: nat)
    requires Rectangular(field) && |xs| == Width(field)
    requires chem.thresholds.Keys == {"LEL"} && i < 4
    ensures CardFor(Labels[i], Colors[i], chem, field, xs).NotApplicable?
  {
    var name := Labels[i];
    assert name == "ERPG-3" || name == "ERPG-2" || name == "ERPG-1" || name == "IDLH";
    CardKeys();
    assert CardKey(name) != "LEL";
    assert CardKey(name) !in chem.thresholds;
  }

  /** ... and on the LEL card the distance for its LEL scaled to ppm. */
  lemma LelOnlyDistance(chem: Chemical, field: seq<seq<real>>, xs: seq<real>)
    requires Rectangular(field) && |xs| == Width(field)
    requires "LEL" in chem.thresholds
    ensures CardFor(Labels[4], Colors[4], chem, field, xs)
         == Distance("LEL", "magenta", MaxDistance(field, xs, chem.thresholds["LEL"] * 10000.0))
  {
    assert Labels[4] == "LEL" && Colors[4] == "magenta";
    assert CardKey("LEL") == "LEL";
    var level := ComparisonLevel("LEL", chem.thresholds["LEL"]);
    assert level == chem.thresholds["LEL"] * 10000.0;
  }
}
