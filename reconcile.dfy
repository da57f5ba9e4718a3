/** The update loop of `update_inventory`: every grouped product code is
    looked up in the inventory's code column, and on a match its total
    overwrites the destination cell of every matching row. */
module Reconcile {
  import opened Cells
  import opened Operation

  /** The product code column of the inventory table. */
  const InventoryCode := "新商品编码"

  /** A row of the grouped table as the loop reads it: `str` of its code, and its total. */
  datatype Entry = Entry(code: string, quantity: int)

  /** The grouped table's rows in loop order, each code turned into text. */
  function Entries(plan: Plan): seq<Entry>
  {
    seq(|plan.totals|, k requires 0 <= k < |plan.totals| =>
      Entry(CodeText(plan.totals[k].code, plan.floatRows), plan.totals[k].quantity))
  }

  /** The inventory row's code cell equals the text `code`; a numeric or empty cell never does. */
  predicate Matches(row: Row, code: string)
  {
    Get(row, InventoryCode) == Text(code)
  }

  /** Some inventory row carries the entry's code. */
  predicate Found(rows: seq<Row>, t: Entry)
  {
    exists r :: 0 <= r < |rows| && Matches(rows[r], t.code)
  }

  /** One step of the loop: the destination cell of every row matching the
      total's code is set to the total. */
  function ApplyTotal(rows: seq<Row>, t: Entry, column: string): (r: seq<Row>)
    ensures |r| == |rows|
    ensures forall i, c :: 0 <= i < |r| && c != column ==> Get(r[i], c) == Get(rows[i], c)
    ensures forall i :: 0 <= i < |r| && Matches(rows[i], t.code) ==> Get(r[i], column) == Int(t.quantity)
    ensures forall i :: 0 <= i < |r| && !Matches(rows[i], t.code) ==> r[i] == rows[i]
  {
    seq(|rows|, i requires 0 <= i < |rows| =>
      if Matches(rows[i], t.code) then rows[i][column := Int(t.quantity)] else rows[i])
  }

  /** The table after the loop has run over all totals in order. */
  function ApplyAll(rows: seq<Row>, totals: seq<Entry>, column: string): (r: seq<Row>)
    ensures |r| == |rows|
  {
    if |totals| == 0 then rows
    else ApplyTotal(ApplyAll(rows, totals[..|totals| - 1], column), totals[|totals| - 1], column)
  }

  /** The number of totals whose code some inventory row carries. */
  function CountFound(rows: seq<Row>, totals: seq<Entry>): (n: nat)
    ensures n <= |totals|
  {
    if |totals| == 0 then 0
    else CountFound(rows, totals[..|totals| - 1]) + (if Found(rows, totals[|totals| - 1]) then 1 else 0)
  }

  /** The positions of the totals that are found in the inventory. */
  function FoundPositions(rows: seq<Row>, totals: seq<Entry>): set<nat>
  {
    set k: nat | k < |totals| && Found(rows, totals[k])
  }

  /** Distinct grouped codes that are all numbers, or all text, read as
      distinct texts; a number and a text can read the same ("1001"). */
  lemma EntryCodesDistinct(plan: Plan)
    requires Distinct(plan.totals)
    requires (forall k :: 0 <= k < |plan.totals| ==> plan.totals[k].code.Int?)
          || (forall k :: 0 <= k < |plan.totals| ==> plan.totals[k].code.Text?)
    ensures forall j1, j2 :: 0 <= j1 < j2 < |Entries(plan)| ==> Entries(plan)[j1].code != Entries(plan)[j2].code
  {
    var entries := Entries(plan);
    forall j1, j2 | 0 <= j1 < j2 < |entries| ensures entries[j1].code != entries[j2].code {
      var c1, c2 := plan.totals[j1].code, plan.totals[j2].code;
      assert c1 != c2;
      if c1.Int? && c2.Int? && entries[j1].code == entries[j2].code {
        var s := entries[j1].code;
        var t1, t2 := IntToString(c1.n), IntToString(c2.n);
        assert |t1| == |t2|;
        assert t1 == s[..|t1|] == t2;
        IntToStringInjective(c1.n, c2.n);
      }
    }
  }

  // ----- what the update does and does not change -----

  /** A total whose code no row carries leaves the table as it was. */
  lemma NotFoundLeavesTable(rows: seq<Row>, t: Entry, column: string)
    requires !Found(rows, t)
    ensures ApplyTotal(rows, t, column) == rows
  {
    var r := ApplyTotal(rows, t, column);
    forall i | 0 <= i < |rows| ensures r[i] == rows[i] {
      assert !Matches(rows[i], t.code);
    }
  }

  /** Columns other than the destination column keep their values. */
  lemma {:induction false} OtherColumnsUnchanged(rows: seq<Row>, totals: seq<Entry>, column: string, i: nat, c: string)
    requires i < |rows| && c != column
    ensures Get(ApplyAll(rows, totals, column)[i], c) == Get(rows[i], c)
  {
    if |totals| > 0 {
      OtherColumnsUnchanged(rows, totals[..|totals| - 1], column, i, c);
    }
  }

  /** A row whose code matches none of the totals is left exactly as it was. */
  lemma {:induction false} UnmatchedRowUnchanged(rows: seq<Row>, totals: seq<Entry>, column: string, i: nat)
    requires i < |rows| && column != InventoryCode
    requires forall k :: 0 <= k < |totals| ==> !Matches(rows[i], totals[k].code)
    ensures ApplyAll(rows, totals, column)[i] == rows[i]
  {
    if |totals| > 0 {
      var prefix := totals[..|totals| - 1];
      UnmatchedRowUnchanged(rows, prefix, column, i);
      assert !Matches(rows[i], totals[|totals| - 1].code);
    }
  }

  /** The loop never writes the code column, so what matches stays the same. */
  lemma CodesUnchanged(rows: seq<Row>, totals: seq<Entry>, column: string)
    requires column != InventoryCode
    ensures forall t :: Found(ApplyAll(rows, totals, column), t) <==> Found(rows, t)
  {
    var after := ApplyAll(rows, totals, column);
    forall i | 0 <= i < |rows| ensures Get(after[i], InventoryCode) == Get(rows[i], InventoryCode) {
      OtherColumnsUnchanged(rows, totals, column, i, InventoryCode);
    }
    forall t ensures Found(after, t) <==> Found(rows, t) {
      if Found(after, t) {
        var r :| 0 <= r < |after| && Matches(after[r], t.code);
        assert Matches(rows[r], t.code);
      }
      if Found(rows, t) {
        var r :| 0 <= r < |rows| && Matches(rows[r], t.code);
        assert Matches(after[r], t.code);
      }
    }
  }

  /** Overwrite, last write wins: a row matching the code of total `k`, and of
      no later total, ends with total `k` in its destination cell, whatever the
      cell held before. */
  lemma {:induction false} MatchedRowOverwritten(rows: seq<Row>, totals: seq<Entry>, column: string, i: nat, k: nat)
    requires i < |rows| && k < |totals| && column != InventoryCode
    requires Matches(rows[i], totals[k].code)
    requires forall j :: k < j < |totals| ==> !Matches(rows[i], totals[j].code)
    ensures Get(ApplyAll(rows, totals, column)[i], column) == Int(totals[k].quantity)
  {
    var n := |totals|;
    var prefix := totals[..n - 1];
    var before := ApplyAll(rows, prefix, column);
    OtherColumnsUnchanged(rows, prefix, column, i, InventoryCode);
    assert Matches(before[i], totals[n - 1].code) <==> Matches(rows[i], totals[n - 1].code);
    if k < n - 1 {
      MatchedRowOverwritten(rows, prefix, column, i, k);
    }
  }

  /** With distinct code texts, every matching row holds its code's total. */
  lemma MatchedRowHoldsTotal(rows: seq<Row>, totals: seq<Entry>, column: string, i: nat, k: nat)
    requires i < |rows| && k < |totals| && column != InventoryCode
    requires forall j1, j2 :: 0 <= j1 < j2 < |totals| ==> totals[j1].code != totals[j2].code
    requires Matches(rows[i], totals[k].code)
    ensures Get(ApplyAll(rows, totals, column)[i], column) == Int(totals[k].quantity)
  {
    MatchedRowOverwritten(rows, totals, column, i, k);
  }

  /** When the grouped codes are all numbers or all text, every inventory
      row carrying a code's text ends holding that code's total. */
  lemma EntryTotalsWritten(rows: seq<Row>, plan: Plan, i: nat, k: nat)
    requires Distinct(plan.totals)
    requires (forall j :: 0 <= j < |plan.totals| ==> plan.totals[j].code.Int?)
          || (forall j :: 0 <= j < |plan.totals| ==> plan.totals[j].code.Text?)
    requires i < |rows| && k < |plan.totals| && plan.column != InventoryCode
    requires Matches(rows[i], CodeText(plan.totals[k].code, plan.floatRows))
    ensures Get(ApplyAll(rows, Entries(plan), plan.column)[i], plan.column) == Int(plan.totals[k].quantity)
  {
    EntryCodesDistinct(plan);
    MatchedRowHoldsTotal(rows, Entries(plan), plan.column, i, k);
  }

  /** `updated_count` counts codes, not rows: it is the number of totals found. */
  lemma {:induction false} CountFoundIsFoundCodes(rows: seq<Row>, totals: seq<Entry>)
    ensures CountFound(rows, totals) == |FoundPositions(rows, totals)|
  {
    if |totals| > 0 {
      var prefix := totals[..|totals| - 1];
      CountFoundIsFoundCodes(rows, prefix);
      FoundPositionsStep(rows, totals);
      var before := FoundPositions(rows, prefix);
      if Found(rows, totals[|totals| - 1]) {
        assert |before + {|totals| - 1}| == |before| + 1;
      }
    }
  }

  lemma FoundPositionsStep(rows: seq<Row>, totals: seq<Entry>)
    requires |totals| > 0
    ensures |totals| - 1 !in FoundPositions(rows, totals[..|totals| - 1])
    ensures FoundPositions(rows, totals) ==
      FoundPositions(rows, totals[..|totals| - 1]) + (if Found(rows, totals[|totals| - 1]) then {|totals| - 1} else {})
  {
    var prefix := totals[..|totals| - 1];
    forall k: nat | k < |prefix| ensures totals[k] == prefix[k] { }
  }

  /** A row gains at most the destination column, and only when some code was found. */
  lemma {:induction false} ApplyAllKeys(rows: seq<Row>, totals: seq<Entry>, column: string, i: nat)
    requires i < |rows| && column != InventoryCode
    ensures ApplyAll(rows, totals, column)[i].Keys <= rows[i].Keys + (if CountFound(rows, totals) > 0 then {column} else {})
  {
    if |totals| > 0 {
      var prefix := totals[..|totals| - 1];
      var last := totals[|totals| - 1];
      var before := ApplyAll(rows, prefix, column);
      ApplyAllKeys(rows, prefix, column, i);
      if Matches(before[i], last.code) {
        CodesUnchanged(rows, prefix, column);
        assert Found(before, last);
        assert Found(rows, last);
      }
    }
  }

  // ----- the loop and the whole run -----

  /** The `for _, row in df_sum.iterrows()` loop over the grouped entries,
      updating the inventory rows in place. */
  method ApplyTotals(rows: array<Row>, totals: seq<Entry>, column: string) returns (updated: nat, notFound: nat)
    requires column != InventoryCode
    modifies rows
    ensures rows[..] == ApplyAll(old(rows[..]), totals, column)
    ensures updated == CountFound(old(rows[..]), totals)
    ensures notFound == |totals| - updated
  {
    ghost var original := rows[..];
    updated, notFound := 0, 0;
    var i := 0;
    while i < |totals|
      invariant 0 <= i <= |totals|
      invariant rows[..] == ApplyAll(original, totals[..i], column)
      invariant updated == CountFound(original, totals[..i])
      invariant updated + notFound == i
    {
      assert totals[..i + 1][..i] == totals[..i];
      ghost var before := rows[..];
      CodesUnchanged(original, totals[..i], column);
      var t := totals[i];
      var code := t.code;
      var found := exists r :: 0 <= r < rows.Length && Matches(rows[r], code);
      assert found == Found(before, t);
      if found {
        forall r | 0 <= r < rows.Length && Matches(rows[r], code) {
          rows[r] := rows[r][column := Int(t.quantity)];
        }
        assert rows[..] == ApplyTotal(before, t, column);
        updated := updated + 1;
      } else {
        NotFoundLeavesTable(before, t, column);
        notFound := notFound + 1;
      }
      i := i + 1;
    }
    assert totals[..i] == totals;
  }

  /** How a run ends: no file chosen, an error before saving, or the table saved
      with its columns and the two counters. */
  datatype Outcome =
    | NotSelected
    | Failed(error: Error)
    | Saved(columns: seq<string>, updated: nat, notFound: nat)

  /** `update_inventory`: `columns` and `rows` are the inventory sheet as read
      (every cell of a row lies in one of the columns), `op` the operation file
      as read, `dayOf` the date parser. On `Saved`, `rows` and the returned
      columns are what is written back. */
  method UpdateInventory(inventoryPath: string, operationPath: string, columns: seq<string>, rows: array<Row>,
                         op: OperationFile, dayOf: Cell -> Option<Day>) returns (outcome: Outcome)
    requires forall i :: 0 <= i < rows.Length ==> forall c :: c in rows[i] ==> c in columns
    modifies rows
    ensures outcome == NotSelected <==> inventoryPath == [] || operationPath == []
    ensures !outcome.Saved? ==> rows[..] == old(rows[..])
    ensures outcome.Failed? && Prepare(op, dayOf).Err? ==> outcome.error == Prepare(op, dayOf).error
    ensures outcome.Failed? && Prepare(op, dayOf).Ok? ==>
      outcome.error == MissingColumn(InventoryCode) && |Prepare(op, dayOf).value.totals| > 0 && InventoryCode !in columns
    ensures outcome.Saved? ==>
      && Prepare(op, dayOf).Ok?
      && var plan := Prepare(op, dayOf).value;
      && rows[..] == ApplyAll(old(rows[..]), Entries(plan), plan.column)
      && outcome.updated == CountFound(old(rows[..]), Entries(plan))
      && outcome.updated + outcome.notFound == |CodesOf(op.records)|
      && outcome.columns == (if outcome.updated > 0 && plan.column !in columns then columns + [plan.column] else columns)
      && forall i :: 0 <= i < rows.Length ==> forall c :: c in rows[i] ==> c in outcome.columns
    ensures inventoryPath != [] && operationPath != [] && Prepare(op, dayOf).Ok? ==>
      (outcome.Saved? <==> |Prepare(op, dayOf).value.totals| == 0 || InventoryCode in columns)
  {
    if inventoryPath == [] || operationPath == [] {
      return NotSelected;
    }
    var prepared := Prepare(op, dayOf);
    if prepared.Err? {
      return Failed(prepared.error);
    }
    var plan := prepared.value;
    if |plan.totals| > 0 && InventoryCode !in columns {
      return Failed(MissingColumn(InventoryCode));
    }
    assert ParseColumnName(InventoryCode).None?;
    AggregateCount(op.records, QuantityColumn(plan.direction));
    DistinctCount(plan.totals);
    ghost var original := rows[..];
    var entries := Entries(plan);
    var updated, notFound := ApplyTotals(rows, entries, plan.column);
    var written := if updated > 0 && plan.column !in columns then columns + [plan.column] else columns;
    forall i | 0 <= i < rows.Length ensures forall c :: c in rows[i] ==> c in written {
      ApplyAllKeys(original, entries, plan.column, i);
    }
    outcome := Saved(written, updated, notFound);
  }
}
