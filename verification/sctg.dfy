/**
 The SCTG (Standard Classification of Transported Goods) code table, its
 reversal from label to code, the classification of each commodity, and the
 report of codes that no commodity uses.
 */
module Sctg {
  import opened Wrappers
  import Dicts

  type Code = string
  type Label = string

  const Label01: Label := "Animals and Fish (live)"
  const Label02: Label := "Cereal Grains (includes seed)"
  const Label03: Label := "Agricultural Products (excludes Animal Feed, Cereal Grains, and Forage Products)"
  const Label04: Label := "Animal Feed, Eggs, Honey, and Other Products of Animal Origin"
  const Label05: Label := "Meat, Poultry, Fish, Seafood, and Their Preparations"
  const Label06: Label := "Milled Grain Products and Preparations, and Bakery Products"
  const Label07: Label := "Other Prepared Foodstuffs, and Fats and Oils"
  const Label08: Label := "Alcoholic Beverages and Denatured Alcohol"
  const Label09: Label := "Tobacco Products"
  const Label10: Label := "Monumental or Building Stone"
  const Label11: Label := "Natural Sands"
  const Label12: Label := "Gravel and Crushed Stone (excludes Dolomite and Slate)"
  const Label13: Label := "Other Non-Metallic Minerals not elsewhere classified"
  const Label14: Label := "Metallic Ores and Concentrates"
  const Label15: Label := "Coal"
  const Label16: Label := "Crude Petroleum"
  const Label17: Label := "Gasoline, Aviation Turbine Fuel, and Ethanol (includes Kerosene, and Fuel Alcohols)"
  const Label18: Label := "Fuel Oils (includes Diesel, Bunker C, and Biodiesel)"
  const Label19: Label := "Other Coal and Petroleum Products, not elsewhere classified"
  const Label20: Label := "Basic Chemicals"
  const Label21: Label := "Pharmaceutical Products"
  const Label22: Label := "Fertilizers"
  const Label23: Label := "Other Chemical Products and Preparations"
  const Label24: Label := "Plastics and Rubber"
  const Label25: Label := "Logs and Other Wood in the Rough"
  const Label26: Label := "Wood Products"
  const Label27: Label := "Pulp, Newsprint, Paper, and Paperboard"
  const Label28: Label := "Paper or Paperboard Articles"
  const Label29: Label := "Printed Products"
  const Label30: Label := "Textiles, Leather, and Articles of Textiles or Leather"
  const Label31: Label := "Non-Metallic Mineral Products"
  const Label32: Label := "Base Metal in Primary or Semi-Finished Forms and in Finished Basic Shapes"
  const Label33: Label := "Articles of Base Metal"
  const Label34: Label := "Machinery"
  const Label35: Label := "Electronic and Other Electrical Equipment and Components, and Office Equipment"
  const Label36: Label := "Motorized and Other Vehicles (includes parts)"
  const Label37: Label := "Transportation Equipment, not elsewhere classified"
  const Label38: Label := "Precision Instruments and Apparatus"
  const Label39: Label := "Furniture, Mattresses and Mattress Supports, Lamps, Lighting Fittings, and Illuminated Signs"
  const Label40: Label := "Miscellaneous Manufactured Products"
  const Label41: Label := "Waste and Scrap (excludes of agriculture or food, see 041xx)"
  const Label43: Label := "Mixed Freight"

  // The table in insertion order, in six groups of seven so that the
  // distinctness of its codes and labels can be checked group by group.
  const Group0: seq<(Code, Label)> := [
    ("01", Label01),
    ("02", Label02),
    ("03", Label03),
    ("04", Label04),
    ("05", Label05),
    ("06", Label06),
    ("07", Label07)
  ]
  const Group1: seq<(Code, Label)> := [
    ("08", Label08),
    ("09", Label09),
    ("10", Label10),
    ("11", Label11),
    ("12", Label12),
    ("13", Label13),
    ("14", Label14)
  ]
  const Group2: seq<(Code, Label)> := [
    ("15", Label15),
    ("16", Label16),
    ("17", Label17),
    ("18", Label18),
    ("19", Label19),
    ("20", Label20),
    ("21", Label21)
  ]
  const Group3: seq<(Code, Label)> := [
    ("22", Label22),
    ("23", Label23),
    ("24", Label24),
    ("25", Label25),
    ("26", Label26),
    ("27", Label27),
    ("28", Label28)
  ]
  const Group4: seq<(Code, Label)> := [
    ("29", Label29),
    ("30", Label30),
    ("31", Label31),
    ("32", Label32),
    ("33", Label33),
    ("34", Label34),
    ("35", Label35)
  ]
  const Group5: seq<(Code, Label)> := [
    ("36", Label36),
    ("37", Label37),
    ("38", Label38),
    ("39", Label39),
    ("40", Label40),
    ("41", Label41),
    ("43", Label43)
  ]

  /** The items of `SCTG_codes`, in insertion order. */
  const Items: seq<(Code, Label)> := Group0 + Group1 + Group2 + Group3 + Group4 + Group5

  /** `SCTG_codes`: code to label. */
  const Codes: map<Code, Label> := Dicts.FromItems(Items)

  /** `reversed_SCTG_codes`: label to code, built from the items of `SCTG_codes`. */
  const Reversed: map<Label, Code> := Dicts.FromItems(Dicts.Swap(Items))

  lemma Group0IsDistinct() ensures Dicts.DistinctKeys(Group0) && Dicts.DistinctValues(Group0) {}
  lemma Group1IsDistinct() ensures Dicts.DistinctKeys(Group1) && Dicts.DistinctValues(Group1) {}
  lemma Group2IsDistinct() ensures Dicts.DistinctKeys(Group2) && Dicts.DistinctValues(Group2) {}
  lemma Group3IsDistinct() ensures Dicts.DistinctKeys(Group3) && Dicts.DistinctValues(Group3) {}
  lemma Group4IsDistinct() ensures Dicts.DistinctKeys(Group4) && Dicts.DistinctValues(Group4) {}
  lemma Group5IsDistinct() ensures Dicts.DistinctKeys(Group5) && Dicts.DistinctValues(Group5) {}

  lemma Groups01Apart() ensures Dicts.Apart(Group0, Group1) {}
  lemma Groups02Apart() ensures Dicts.Apart(Group0, Group2) {}
  lemma Groups03Apart() ensures Dicts.Apart(Group0, Group3) {}
  lemma Groups04Apart() ensures Dicts.Apart(Group0, Group4) {}
  lemma Groups05Apart() ensures Dicts.Apart(Group0, Group5) {}
  lemma Groups12Apart() ensures Dicts.Apart(Group1, Group2) {}
  lemma Groups13Apart() ensures Dicts.Apart(Group1, Group3) {}
  lemma Groups14Apart() ensures Dicts.Apart(Group1, Group4) {}
  lemma Groups15Apart() ensures Dicts.Apart(Group1, Group5) {}
  lemma Groups23Apart() ensures Dicts.Apart(Group2, Group3) {}
  lemma Groups24Apart() ensures Dicts.Apart(Group2, Group4) {}
  lemma Groups25Apart() ensures Dicts.Apart(Group2, Group5) {}
  lemma Groups34Apart() ensures Dicts.Apart(Group3, Group4) {}
  lemma Groups35Apart() ensures Dicts.Apart(Group3, Group5) {}
  lemma Groups45Apart() ensures Dicts.Apart(Group4, Group5) {}

  /** Group `n` is apart from every later group. */
  lemma ApartFromLater()
    ensures Dicts.Apart(Group4, Group5)
    ensures Dicts.Apart(Group3, Group4 + Group5)
    ensures Dicts.Apart(Group2, Group3 + Group4 + Group5)
    ensures Dicts.Apart(Group1, Group2 + Group3 + Group4 + Group5)
    ensures Dicts.Apart(Group0, Group1 + Group2 + Group3 + Group4 + Group5)
  {
    Groups45Apart();
    Groups34Apart(); Groups35Apart();
    Dicts.ApartConcat(Group3, Group4, Group5);
    Groups23Apart(); Groups24Apart(); Groups25Apart();
    Dicts.ApartConcat(Group2, Group4, Group5);
    Dicts.ApartConcat(Group2, Group3, Group4 + Group5);
    assert Group3 + (Group4 + Group5) == Group3 + Group4 + Group5;
    Groups12Apart(); Groups13Apart(); Groups14Apart(); Groups15Apart();
    Dicts.ApartConcat(Group1, Group4, Group5);
    Dicts.ApartConcat(Group1, Group3, Group4 + Group5);
    Dicts.ApartConcat(Group1, Group2, Group3 + Group4 + Group5);
    assert Group2 + (Group3 + Group4 + Group5) == Group2 + Group3 + Group4 + Group5;
    Groups01Apart(); Groups02Apart(); Groups03Apart(); Groups04Apart(); Groups05Apart();
    Dicts.ApartConcat(Group0, Group4, Group5);
    Dicts.ApartConcat(Group0, Group3, Group4 + Group5);
    Dicts.ApartConcat(Group0, Group2, Group3 + Group4 + Group5);
    Dicts.ApartConcat(Group0, Group1, Group2 + Group3 + Group4 + Group5);
    assert Group1 + (Group2 + Group3 + Group4 + Group5) == Group1 + Group2 + Group3 + Group4 + Group5;
  }

  /** The 42 codes of the table are distinct, and so are the 42 labels. */
  lemma TableIsInjective()
    ensures |Items| == 42
    ensures Dicts.DistinctKeys(Items) && Dicts.DistinctValues(Items)
  {
    Group0IsDistinct(); Group1IsDistinct(); Group2IsDistinct();
    Group3IsDistinct(); Group4IsDistinct(); Group5IsDistinct();
    ApartFromLater();
    Dicts.ConcatDistinct(Group4, Group5);
    Dicts.ConcatDistinct(Group3, Group4 + Group5);
    assert Group3 + (Group4 + Group5) == Group3 + Group4 + Group5;
    Dicts.ConcatDistinct(Group2, Group3 + Group4 + Group5);
    assert Group2 + (Group3 + Group4 + Group5) == Group2 + Group3 + Group4 + Group5;
    Dicts.ConcatDistinct(Group1, Group2 + Group3 + Group4 + Group5);
    assert Group1 + (Group2 + Group3 + Group4 + Group5) == Group1 + Group2 + Group3 + Group4 + Group5;
    Dicts.ConcatDistinct(Group0, Group1 + Group2 + Group3 + Group4 + Group5);
    assert Group0 + (Group1 + Group2 + Group3 + Group4 + Group5) == Items;
  }

  /**
   `reversed_SCTG_codes` is the exact inverse of `SCTG_codes`: every code is
   recovered from its label and every label from its code, and both tables
   have 42 entries.
   */
  lemma ReversedIsExactInverse()
    ensures forall k :: k in Codes ==> Codes[k] in Reversed && Reversed[Codes[k]] == k
    ensures forall v :: v in Reversed ==> v in Codes.Values && Codes[Reversed[v]] == v
    ensures |Codes| == |Reversed| == 42
  {
    TableIsInjective();
    Dicts.ReverseOfInjectiveIsExactInverse(Items);
  }

  /** `df_olca['Commodity'].map(reversed_SCTG_codes)`: a label outside the table gives NaN. */
  function Classify(commodity: Label): Option<Code> {
    if commodity in Reversed then Some(Reversed[commodity]) else None
  }

  /** A commodity is classified under code `k` exactly when it is `k`'s label. */
  lemma ClassifyIsLabelLookup(commodity: Label, k: Code)
    ensures Classify(commodity) == Some(k) <==> k in Codes && Codes[k] == commodity
  {
    ReversedIsExactInverse();
  }

  /** The SCTG column of a dataset whose Commodity column is `commodities`. */
  function Column(commodities: seq<Label>): (column: seq<Option<Code>>)
    ensures |column| == |commodities|
    ensures forall i :: 0 <= i < |commodities| ==> column[i] == Classify(commodities[i])
  {
    seq(|commodities|, i requires 0 <= i < |commodities| => Classify(commodities[i]))
  }

  /** `set(SCTG_codes.keys()) - set(df_olca['SCTG'])`. */
  function MissingCodes(column: seq<Option<Code>>): (missing: set<Code>)
    ensures missing <= Codes.Keys
  {
    set k | k in Codes && Some(k) !in column
  }

  /** A code is reported missing exactly when no commodity of the dataset is its label. */
  lemma MissingIffNoCommodityHasLabel(commodities: seq<Label>, k: Code)
    ensures k in MissingCodes(Column(commodities)) <==>
              k in Codes && forall i :: 0 <= i < |commodities| ==> commodities[i] != Codes[k]
  {
    var column := Column(commodities);
    if k in Codes {
      if Some(k) in column {
        var i :| 0 <= i < |column| && column[i] == Some(k);
        ClassifyIsLabelLookup(commodities[i], k);
      } else {
        forall i | 0 <= i < |commodities|
          ensures commodities[i] != Codes[k]
        {
          ClassifyIsLabelLookup(commodities[i], k);
        }
      }
    }
  }

  const MissingPrefix := "Missing SCTG code: "

  /**
   The warning printed for a missing code: the fixed prefix, the code's
   label, then the code in parentheses.
   */
  function MissingMessage(k: Code): (m: string)
    requires k in Codes
    ensures |m| == |MissingPrefix| + |Codes[k]| + |k| + 3
    ensures m[..|MissingPrefix|] == MissingPrefix
    ensures m[|MissingPrefix|..|m| - |k| - 3] == Codes[k]
    ensures m[|m| - |k| - 3..] == " (" + k + ")"
  {
    var name := Codes[k];
    var tail := " (" + k + ")";
    var m := MissingPrefix + name + tail;
    assert m[..|MissingPrefix|] == MissingPrefix;
    assert m[|MissingPrefix|..|m| - |k| - 3] == name;
    assert m[|m| - |k| - 3..] == tail;
    m
  }

  /**
   The report loop: one message per missing code, in the set's iteration
   order (which Python leaves unspecified), and none when nothing is missing.
   */
  method ReportMissing(missing: set<Code>) returns (reported: seq<Code>, messages: seq<string>)
    requires missing <= Codes.Keys
    ensures |reported| == |missing| && |messages| == |reported|
    ensures forall k :: k in reported <==> k in missing
    ensures forall i, j :: 0 <= i < j < |reported| ==> reported[i] != reported[j]
    ensures forall i :: 0 <= i < |messages| ==> messages[i] == MissingMessage(reported[i])
  {
    reported, messages := [], [];
    var todo := missing;
    while todo != {}
      invariant todo <= missing
      invariant |reported| + |todo| == |missing| && |messages| == |reported|
      invariant forall k :: k in missing <==> k in reported || k in todo
      invariant forall k :: k in reported ==> k !in todo
      invariant forall i, j :: 0 <= i < j < |reported| ==> reported[i] != reported[j]
      invariant forall i :: 0 <= i < |messages| ==> reported[i] in Codes && messages[i] == MissingMessage(reported[i])
      decreases todo
    {
      var k :| k in todo;
      reported, messages := reported + [k], messages + [MissingMessage(k)];
      todo := todo - {k};
    }
  }
}
