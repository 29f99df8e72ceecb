/**
  Worked instances of the report's rules on a small sheet: names match
  exactly (no trimming, no case folding), an unparseable usage adds nothing,
  and the columns pair by position.
*/
module WoodExamples {
  import opened Wrappers
  import opened Table
  import opened Seqs
  import opened Usage

  /** Text coercion that knows only "2" (as `pd.to_numeric` would parse it); "N/A" fails. */
  function ParseSample(s: string): Option<real> {
    if s == "2" then Some(2.0) else None
  }

  const Pairs2: seq<(string, string)> := [("MATERIAL WOOD 1", "WOOD 1"), ("MATERIAL WOOD 2", "WOOD 2")]

  const RowA: Row := map["QTY" := Number(2.0),
                         "MATERIAL WOOD 1" := Text("Plywood"), "WOOD 1" := Number(3.0),
                         "MATERIAL WOOD 2" := Text("Oak"), "WOOD 2" := Number(1.5)]
  const RowB: Row := map["QTY" := Number(2.0),
                         "MATERIAL WOOD 1" := Text("plywood "), "WOOD 1" := Text("2")]
  const RowC: Row := map["QTY" := Number(4.0),
                         "MATERIAL WOOD 1" := Text("Oak"), "WOOD 1" := Text("N/A")]

  /**
    "Plywood" and "plywood " are two materials: 3 x 2 = 6 and 2 x 2 = 4.
    Oak gets 1.5 x 2 = 3 from row A, and nothing from row C, whose usage
    "N/A" does not parse.
  */
  lemma ExactNameMatching()
    ensures MaterialTotal([RowA, RowB, RowC], Pairs2, Text("Plywood"), ParseSample) == 6.0
    ensures MaterialTotal([RowA, RowB, RowC], Pairs2, Text("plywood "), ParseSample) == 4.0
    ensures MaterialTotal([RowA, RowB, RowC], Pairs2, Text("Oak"), ParseSample) == 3.0
  {
    var rows := [RowA, RowB, RowC];
    assert Lookup(RowB, "MATERIAL WOOD 2") == Blank && Lookup(RowC, "MATERIAL WOOD 2") == Blank;
    assert "Plywood"[0] != "plywood "[0] && "Plywood"[0] != "Oak"[0] && "plywood "[0] != "Oak"[0];
    assert ParseSample("N/A") == None by { assert "N/A"[0] != "2"[0]; }
    // A column total over the three rows is their three contributions, and
    // a material's total over the two pairs is their two column totals.
    assert rows[1..] == [RowB, RowC] && rows[1..][1..] == [RowC] && rows[1..][1..][1..] == [];
    assert Pairs2[1..] == [Pairs2[1]] && Pairs2[1..][1..] == [];
    forall pair: (string, string), m: Cell
      ensures ColumnTotal(rows, pair, m, ParseSample)
           == Contribution(RowA, pair, m, ParseSample) + Contribution(RowB, pair, m, ParseSample)
            + Contribution(RowC, pair, m, ParseSample)
    {
      assert ColumnTotal([RowC], pair, m, ParseSample) == Contribution(RowC, pair, m, ParseSample);
    }
    forall m: Cell
      ensures MaterialTotal(rows, Pairs2, m, ParseSample)
           == ColumnTotal(rows, Pairs2[0], m, ParseSample) + ColumnTotal(rows, Pairs2[1], m, ParseSample)
    {
      assert MaterialTotal(rows, [Pairs2[1]], m, ParseSample) == ColumnTotal(rows, Pairs2[1], m, ParseSample);
    }
  }

  lemma {:induction false} ShortHasNoContains(s: string, sub: string)
    requires |s| < |sub|
    ensures !Contains(s, sub)
    decreases |s|
  {
    if s != [] {
      ShortHasNoContains(s[1..], sub);
    }
  }

  const SampleHeader: seq<string> := ["QTY", "MATERIAL WOOD 1", "WOOD 1", "MATERIAL WOOD 2"]

  lemma SampleColumnKinds()
    ensures !IsNameColumn("QTY") && IsNameColumn("MATERIAL WOOD 1")
    ensures !IsNameColumn("WOOD 1") && IsNameColumn("MATERIAL WOOD 2")
    ensures !IsUsageColumn("QTY") && !IsUsageColumn("MATERIAL WOOD 1")
    ensures IsUsageColumn("WOOD 1") && !IsUsageColumn("MATERIAL WOOD 2")
  {
    ShortHasNoContains("QTY", MATERIAL_WOOD);
    ShortHasNoContains("WOOD 1", MATERIAL_WOOD);
    assert StartsWith("MATERIAL WOOD 2", MATERIAL_WOOD);
    assert StartsWith("MATERIAL WOOD 1", MATERIAL_WOOD);
    assert "MATERIAL WOOD 1"[0] != WOOD[0] && "MATERIAL WOOD 2"[0] != WOOD[0];
  }

  lemma SampleNameColumns()
    ensures NameColumns(SampleHeader) == ["MATERIAL WOOD 1", "MATERIAL WOOD 2"]
  {
    SampleColumnKinds();
    var h := SampleHeader;
    assert h[1..][1..][1..] == ["MATERIAL WOOD 2"] && h[1..][1..][1..][1..] == [];
    assert Select(h[1..][1..][1..], IsNameColumn) == ["MATERIAL WOOD 2"];
    assert Select(h[1..][1..], IsNameColumn) == ["MATERIAL WOOD 2"];
    assert Select(h[1..], IsNameColumn) == ["MATERIAL WOOD 1", "MATERIAL WOOD 2"];
  }

  lemma SampleUsageColumns()
    ensures UsageColumns(SampleHeader) == ["WOOD 1"]
  {
    SampleColumnKinds();
    var h := SampleHeader;
    assert h[1..][1..][1..] == ["MATERIAL WOOD 2"] && h[1..][1..][1..][1..] == [];
    assert Select(h[1..][1..][1..], IsUsageColumn) == [];
    assert Select(h[1..][1..], IsUsageColumn) == ["WOOD 1"];
    assert Select(h[1..], IsUsageColumn) == ["WOOD 1"];
  }

  /**
    Two name columns but one usage column: `zip` pairs the first name column
    with "WOOD 1" and drops "MATERIAL WOOD 2"; "QTY" matches neither pattern.
  */
  lemma PairingTruncates()
    ensures SlotPairs(SampleHeader) == [("MATERIAL WOOD 1", "WOOD 1")]
  {
    SampleNameColumns();
    SampleUsageColumns();
  }
}
