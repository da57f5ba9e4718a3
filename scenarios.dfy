/** Worked examples on concrete sheets, proved as lemmas. */
module Scenarios {
  import opened Cells
  import opened Operation
  import opened Reconcile

  function FirstOutbound(): Row
  {
    map[OutboundMarker := Text("CK001"), CodeColumn := Int(1001), OutboundQuantity := Int(3), DateColumn := Text("2024-05-03")]
  }

  function SecondOutbound(): Row
  {
    map[OutboundMarker := Text("CK002"), CodeColumn := Int(1001), OutboundQuantity := Int(2), DateColumn := Text("2024-05-03")]
  }

  /** Two outbound rows for the numeric code 1001, with quantities 3 and 2,
      created on the 3rd: one total of 5 for column "3日出库". */
  lemma OutboundTwoRowsPlan(dayOf: Cell -> Option<Day>)
    requires dayOf(Text("2024-05-03")) == Some(3)
    ensures Prepare(OperationFile({OutboundMarker, CodeColumn, OutboundQuantity, DateColumn}, [FirstOutbound(), SecondOutbound()]), dayOf)
         == Ok(Plan(Outbound, "3日出库", [Total(Int(1001), 5)], false))
  {
    var first, second := FirstOutbound(), SecondOutbound();
    var records := [first, second];
    assert records[..1] == [first];
    assert records[..1][..0] == [];
    assert Get(first, CodeColumn) == Int(1001) && Get(second, CodeColumn) == Int(1001);
    assert Get(first, OutboundQuantity) == Int(3) && Get(second, OutboundQuantity) == Int(2);
    assert Get(first, DateColumn) == Text("2024-05-03");
    assert Aggregate(records[..1], OutboundQuantity) == [Total(Int(1001), 3)];
    assert Aggregate(records, OutboundQuantity) == [Total(Int(1001), 5)];
    assert QuantitiesNumeric(records, OutboundQuantity);
    assert !HasEmpty(records, CodeColumn) && !HasEmpty(records, OutboundQuantity);
    assert NatToString(3) == "3";
    assert ColumnName(3, Outbound) == "3日出库";
  }

  /** `str` of the code 1001 is "1001", or "1001.0" in a floating point row. */
  lemma Code1001Text()
    ensures CodeText(Int(1001), false) == "1001"
    ensures CodeText(Int(1001), true) == "1001.0"
  {
    assert IntToString(1001) == "1001" by {
      assert NatToString(1001) == NatToString(100) + "1";
      assert NatToString(100) == NatToString(10) + "0";
      assert NatToString(10) == "10";
    }
  }

  /** The loop's entry for that total is the text "1001": no float reading. */
  lemma OutboundTwoRowsEntries()
    ensures Entries(Plan(Outbound, "3日出库", [Total(Int(1001), 5)], false)) == [Entry("1001", 5)]
  {
    Code1001Text();
  }

  /** The entry for 1001 with total 5 replaces the old 9 in the row whose code
      cell is the text "1001"; the row for "2002" and the code cells stay as
      they were. */
  lemma OutboundTwoRowsWrite()
    ensures ApplyAll([map[InventoryCode := Text("1001"), "3日出库" := Int(9)], map[InventoryCode := Text("2002")]],
                     [Entry("1001", 5)], "3日出库")
         == [map[InventoryCode := Text("1001"), "3日出库" := Int(5)], map[InventoryCode := Text("2002")]]
  {
    var inventory := [map[InventoryCode := Text("1001"), "3日出库" := Int(9)], map[InventoryCode := Text("2002")]];
    var totals := [Entry("1001", 5)];
    assert totals[..0] == [];
    assert ApplyAll(inventory, totals[..0], "3日出库") == inventory;
    var after := ApplyAll(inventory, totals, "3日出库");
    assert after == ApplyTotal(inventory, Entry("1001", 5), "3日出库");
    assert Matches(inventory[0], "1001") && !Matches(inventory[1], "1001");
    assert after[0] == inventory[0]["3日出库" := Int(5)];
    assert after[1] == inventory[1];
    assert inventory[0]["3日出库" := Int(5)] == map[InventoryCode := Text("1001"), "3日出库" := Int(5)];
  }

  /** A numeric code cell in the inventory never equals the text form of a
      code: the entry is counted as not found and the table is unchanged. */
  lemma NumericInventoryCodeNotFound()
    ensures
      var inventory := [map[InventoryCode := Int(1001)]];
      var totals := [Entry("1001", 5)];
      && CountFound(inventory, totals) == 0
      && ApplyAll(inventory, totals, "3日出库") == inventory
  {
    var inventory := [map[InventoryCode := Int(1001)]];
    var totals := [Entry("1001", 5)];
    assert totals[..0] == [];
    assert !Found(inventory, totals[0]) by {
      assert !Matches(inventory[0], "1001");
    }
    NotFoundLeavesTable(inventory, totals[0], "3日出库");
  }

  function QuantityGiven(): Row
  {
    map[OutboundMarker := Text("CK001"), CodeColumn := Int(1001), OutboundQuantity := Int(3), DateColumn := Text("2024-05-03")]
  }

  function QuantityBlank(): Row
  {
    map[OutboundMarker := Text("CK002"), CodeColumn := Int(1001), OutboundQuantity := Empty, DateColumn := Text("2024-05-03")]
  }

  /** Two outbound rows for the numeric code 1001, one with an empty quantity:
      the total is 3, and the quantity column is read as floating point. */
  lemma BlankQuantityPlan(dayOf: Cell -> Option<Day>)
    requires dayOf(Text("2024-05-03")) == Some(3)
    ensures Prepare(OperationFile({OutboundMarker, CodeColumn, OutboundQuantity, DateColumn}, [QuantityGiven(), QuantityBlank()]), dayOf)
         == Ok(Plan(Outbound, "3日出库", [Total(Int(1001), 3)], true))
  {
    var first, second := QuantityGiven(), QuantityBlank();
    var records := [first, second];
    assert records[..1] == [first];
    assert records[..1][..0] == [];
    assert Get(first, CodeColumn) == Int(1001) && Get(second, CodeColumn) == Int(1001);
    assert Get(first, OutboundQuantity) == Int(3) && Get(second, OutboundQuantity) == Empty;
    assert Get(first, DateColumn) == Text("2024-05-03");
    assert Aggregate(records[..1], OutboundQuantity) == [Total(Int(1001), 3)];
    assert Aggregate(records, OutboundQuantity) == [Total(Int(1001), 3)];
    assert QuantitiesNumeric(records, OutboundQuantity);
    assert HasEmpty(records, OutboundQuantity) && NoText(records, OutboundQuantity) && NoText(records, CodeColumn);
    assert NatToString(3) == "3";
    assert ColumnName(3, Outbound) == "3日出库";
  }

  /** With floating point rows the code 1001 reads as "1001.0", which the
      inventory's text "1001" does not equal: the code counts as not found and
      the table is unchanged. */
  lemma BlankQuantityNotFound()
    ensures
      var inventory := [map[InventoryCode := Text("1001"), "3日出库" := Int(9)]];
      var totals := Entries(Plan(Outbound, "3日出库", [Total(Int(1001), 3)], true));
      && totals == [Entry("1001.0", 3)]
      && CountFound(inventory, totals) == 0
      && ApplyAll(inventory, totals, "3日出库") == inventory
  {
    var inventory := [map[InventoryCode := Text("1001"), "3日出库" := Int(9)]];
    Code1001Text();
    var totals := Entries(Plan(Outbound, "3日出库", [Total(Int(1001), 3)], true));
    assert totals == [Entry("1001.0", 3)];
    assert totals[..0] == [];
    assert !Found(inventory, totals[0]) by {
      assert !Matches(inventory[0], "1001.0");
    }
    NotFoundLeavesTable(inventory, totals[0], "3日出库");
  }
}
