/** Reading one warehouse operation file: which direction it records, the
    name of the inventory column its quantities go to, and its quantities
    summed per product code (`update_inventory`, before the update loop). */
module Operation {
  import opened Cells

  /** Header of the outbound document number; its presence marks an outbound file. */
  const OutboundMarker := "出库单号"
  /** The product code column of an operation file. */
  const CodeColumn := "商品编码"
  /** The date column whose first value gives the day of the operations. */
  const DateColumn := "创建日期"
  /** Quantity column of an outbound file. */
  const OutboundQuantity := "数量"
  /** Quantity column of an inbound (transfer) file. */
  const InboundQuantity := "调拨数量"

  /** A day of the month, as the date parser returns it. */
  type Day = d: int | 1 <= d <= 31 witness 1

  /** An operation file as read: its column headers and its rows. */
  datatype OperationFile = OperationFile(header: set<string>, records: seq<Row>)

  datatype Direction = Outbound | Inbound

  /** One product code with the sum of its quantities (a row of the grouped table). */
  datatype Total = Total(code: Cell, quantity: int)

  /** What stops the run before the inventory is written. */
  datatype Error =
    | NoOperationRows
    | MissingColumn(name: string)
    | UnparsableDate
    | NonNumericQuantity

  datatype Result<T> = Ok(value: T) | Err(error: Error)

  /** What the update loop needs: the direction, the destination column, the
      totals, and whether pandas holds the grouped table's rows as floating
      point (which changes the text of integer codes). */
  datatype Plan = Plan(direction: Direction, column: string, totals: seq<Total>, floatRows: bool)

  // ----- direction and destination column -----

  /** An outbound file is one whose header has the outbound document number. */
  function Classify(header: set<string>): Direction
  {
    if OutboundMarker in header then Outbound else Inbound
  }

  function QuantityColumn(d: Direction): string
  {
    if d == Outbound then OutboundQuantity else InboundQuantity
  }

  function DirectionSuffix(d: Direction): string
  {
    if d == Outbound then "出库" else "进库"
  }

  /** The inventory column for a day and direction: "<day>日出库" or "<day>日进库". */
  function ColumnName(day: Day, d: Direction): (name: string)
    ensures |name| >= 4 && name[|name| - 3] == '日'
    ensures Canonical(name[..|name| - 3]) && ParseNat(name[..|name| - 3]) == day
    ensures name[|name| - 2..] == "出库" <==> d == Outbound
    ensures name[|name| - 2..] == "进库" <==> d == Inbound
  {
    var name := NatToString(day) + "日" + DirectionSuffix(d);
    assert name[..|name| - 3] == NatToString(day);
    ParseNatToString(day);
    name
  }

  /** Reads a destination column name back into its day and direction. */
  function ParseColumnName(name: string): Option<(nat, Direction)>
  {
    if |name| < 4 || name[|name| - 3] != '日' || !Canonical(name[..|name| - 3]) then None
    else if name[|name| - 2..] == "出库" then Some((ParseNat(name[..|name| - 3]), Outbound))
    else if name[|name| - 2..] == "进库" then Some((ParseNat(name[..|name| - 3]), Inbound))
    else None
  }

  /** A destination column name determines the day and the direction it was built from. */
  lemma ColumnNameRoundTrip(day: Day, d: Direction)
    ensures ParseColumnName(ColumnName(day, d)) == Some((day as nat, d))
  {
  }

  /** The other direction: a name that parses to a day of the month and a
      direction is exactly the name built from them. */
  lemma ParseColumnNameInverse(name: string, day: Day, d: Direction)
    requires ParseColumnName(name) == Some((day as nat, d))
    ensures name == ColumnName(day, d)
  {
    var digits := name[..|name| - 3];
    CanonicalIsNatToString(digits);
    assert name[|name| - 2..] == DirectionSuffix(d);
    assert name == digits + "日" + name[|name| - 2..];
  }

  /** Different days or directions never share a destination column. */
  lemma ColumnNameInjective(day1: Day, d1: Direction, day2: Day, d2: Direction)
    requires ColumnName(day1, d1) == ColumnName(day2, d2)
    ensures day1 == day2 && d1 == d2
  {
    ColumnNameRoundTrip(day1, d1);
    ColumnNameRoundTrip(day2, d2);
  }

  // ----- grouping and summing -----

  /** The number a quantity cell adds to a sum: pandas skips empty cells. */
  function Amount(c: Cell): int
  {
    match c
    case Int(n) => n
    case _ => 0
  }

  /** Every row that takes part in the grouping has a numeric or empty quantity. */
  predicate QuantitiesNumeric(records: seq<Row>, quantity: string)
  {
    forall i :: 0 <= i < |records| && Get(records[i], CodeColumn) != Empty ==> !Get(records[i], quantity).Text?
  }

  /** Some row has an empty cell in `column`. */
  predicate HasEmpty(records: seq<Row>, column: string)
  {
    exists i :: 0 <= i < |records| && Get(records[i], column) == Empty
  }

  /** No row has a text cell in `column`: pandas reads it as a numeric column. */
  predicate NoText(records: seq<Row>, column: string)
  {
    forall i :: 0 <= i < |records| ==> !Get(records[i], column).Text?
  }

  /** pandas reads a numeric column with an empty cell as floating point. The
      grouped table's codes are then floats, or its sums are and `iterrows`
      turns each (integer code, float sum) row into a row of floats. */
  predicate FloatRows(records: seq<Row>, quantity: string)
  {
    NoText(records, CodeColumn) && (HasEmpty(records, CodeColumn) || (HasEmpty(records, quantity) && NoText(records, quantity)))
  }

  /** The product codes that occur in the rows; rows with an empty code are dropped by the grouping. */
  function CodesOf(records: seq<Row>): set<Cell>
  {
    set i | 0 <= i < |records| && Get(records[i], CodeColumn) != Empty :: Get(records[i], CodeColumn)
  }

  /** Reference sum: the quantities of all rows carrying `code`. */
  function TotalFor(records: seq<Row>, code: Cell, quantity: string): int
  {
    if |records| == 0 then 0
    else
      var last := records[|records| - 1];
      TotalFor(records[..|records| - 1], code, quantity) + (if Get(last, CodeColumn) == code then Amount(Get(last, quantity)) else 0)
  }

  function KeySet(totals: seq<Total>): set<Cell>
  {
    set k | 0 <= k < |totals| :: totals[k].code
  }

  predicate Distinct(totals: seq<Total>)
  {
    forall j, k :: 0 <= j < k < |totals| ==> totals[j].code != totals[k].code
  }

  /** The sum of the quantities the totals record for `code`. */
  function SumOf(totals: seq<Total>, code: Cell): int
  {
    if |totals| == 0 then 0
    else (if totals[0].code == code then totals[0].quantity else 0) + SumOf(totals[1..], code)
  }

  lemma {:induction false} SumOfDistinct(totals: seq<Total>, k: nat)
    requires Distinct(totals) && k < |totals|
    ensures SumOf(totals, totals[k].code) == totals[k].quantity
  {
    if k == 0 {
      SumOfAbsent(totals[1..], totals[0].code);
    } else {
      SumOfDistinct(totals[1..], k - 1);
    }
  }

  lemma {:induction false} SumOfAbsent(totals: seq<Total>, code: Cell)
    requires code !in KeySet(totals)
    ensures SumOf(totals, code) == 0
  {
    if |totals| > 0 {
      assert totals[0].code in KeySet(totals);
      assert KeySet(totals[1..]) <= KeySet(totals) by {
        forall c | c in KeySet(totals[1..]) ensures c in KeySet(totals) {
          var k :| 0 <= k < |totals[1..]| && totals[1..][k].code == c;
          assert totals[k + 1].code == c;
        }
      }
      SumOfAbsent(totals[1..], code);
    }
  }

  lemma KeySetSplit(totals: seq<Total>)
    requires |totals| > 0
    ensures KeySet(totals) == {totals[0].code} + KeySet(totals[1..])
  {
    var rest := totals[1..];
    forall c | c in KeySet(totals) ensures c in {totals[0].code} + KeySet(rest) {
      var k :| 0 <= k < |totals| && totals[k].code == c;
      if k > 0 { assert rest[k - 1].code == c; }
    }
    forall c | c in KeySet(rest) ensures c in KeySet(totals) {
      var k :| 0 <= k < |rest| && rest[k].code == c;
      assert totals[k + 1].code == c;
    }
  }

  lemma DistinctSplit(totals: seq<Total>)
    requires |totals| > 0
    ensures Distinct(totals) <==> totals[0].code !in KeySet(totals[1..]) && Distinct(totals[1..])
  {
    var rest := totals[1..];
    if totals[0].code !in KeySet(rest) && Distinct(rest) {
      forall j, k | 0 <= j < k < |totals| ensures totals[j].code != totals[k].code {
        assert totals[k].code == rest[k - 1].code;
        if j > 0 { assert totals[j].code == rest[j - 1].code; }
      }
    }
  }

  /** Adds quantity `q` to the total of `code`, appending a new total for a new code. */
  function AddTo(totals: seq<Total>, code: Cell, q: int): (r: seq<Total>)
    ensures KeySet(r) == KeySet(totals) + {code}
    ensures Distinct(totals) ==> Distinct(r)
    ensures forall c :: SumOf(r, c) == SumOf(totals, c) + (if c == code then q else 0)
  {
    if |totals| == 0 then
      var r := [Total(code, q)];
      KeySetSplit(r);
      assert r[1..] == [];
      r
    else if totals[0].code == code then
      var r := [Total(code, totals[0].quantity + q)] + totals[1..];
      KeySetSplit(totals);
      KeySetSplit(r);
      assert r[1..] == totals[1..];
      DistinctSplit(totals);
      DistinctSplit(r);
      r
    else
      var rest := AddTo(totals[1..], code, q);
      var r := [totals[0]] + rest;
      KeySetSplit(totals);
      KeySetSplit(r);
      assert r[1..] == rest;
      DistinctSplit(totals);
      DistinctSplit(r);
      r
  }

  /** The rows grouped by product code with their quantities summed, each code once. */
  function Aggregate(records: seq<Row>, quantity: string): (r: seq<Total>)
    ensures Distinct(r)
    ensures KeySet(r) == CodesOf(records)
    ensures forall c :: c != Empty ==> SumOf(r, c) == TotalFor(records, c, quantity)
  {
    if |records| == 0 then []
    else
      var prefix := records[..|records| - 1];
      var last := records[|records| - 1];
      var prev := Aggregate(prefix, quantity);
      var code := Get(last, CodeColumn);
      assert CodesOf(records) == CodesOf(prefix) + (if code == Empty then {} else {code}) by {
        forall c ensures c in CodesOf(records) <==> c in CodesOf(prefix) + (if code == Empty then {} else {code}) {
          if c in CodesOf(records) {
            var i :| 0 <= i < |records| && Get(records[i], CodeColumn) != Empty && Get(records[i], CodeColumn) == c;
            if i < |prefix| {
              assert prefix[i] == records[i];
            }
          }
          if c in CodesOf(prefix) {
            var i :| 0 <= i < |prefix| && Get(prefix[i], CodeColumn) != Empty && Get(prefix[i], CodeColumn) == c;
            assert records[i] == prefix[i];
          }
        }
      }
      if code == Empty then prev else AddTo(prev, code, Amount(Get(last, quantity)))
  }

  /** Each total is the sum of its code's quantities over the file's rows. */
  lemma AggregateTotals(records: seq<Row>, quantity: string, k: nat)
    requires k < |Aggregate(records, quantity)|
    ensures Aggregate(records, quantity)[k].code in CodesOf(records)
    ensures Aggregate(records, quantity)[k].quantity == TotalFor(records, Aggregate(records, quantity)[k].code, quantity)
  {
    var r := Aggregate(records, quantity);
    assert r[k].code in KeySet(r);
    SumOfDistinct(r, k);
  }

  /** The grouping yields one total per distinct code. */
  lemma {:induction false} DistinctCount(totals: seq<Total>)
    requires Distinct(totals)
    ensures |KeySet(totals)| == |totals|
  {
    if |totals| > 0 {
      KeySetSplit(totals);
      DistinctSplit(totals);
      DistinctCount(totals[1..]);
    }
  }

  /** The number of grouped totals is the number of distinct non-empty product codes. */
  lemma AggregateCount(records: seq<Row>, quantity: string)
    ensures |Aggregate(records, quantity)| == |CodesOf(records)|
  {
    DistinctCount(Aggregate(records, quantity));
  }

  // ----- the whole preparation step -----

  /** From an operation file to the update plan, in the order the source
      reads the file: the first row's creation date, the direction, then the
      grouping by product code of the direction's quantity column. `dayOf`
      stands for the date parser, `None` when it raises. */
  function Prepare(op: OperationFile, dayOf: Cell -> Option<Day>): (r: Result<Plan>)
    ensures r == Err(NoOperationRows) <==> |op.records| == 0
    ensures r == Err(MissingColumn(DateColumn)) <==> |op.records| > 0 && DateColumn !in op.header
    ensures r == Err(UnparsableDate) <==>
      |op.records| > 0 && DateColumn in op.header && dayOf(Get(op.records[0], DateColumn)).None?
    ensures r == Err(MissingColumn(CodeColumn)) <==>
      && |op.records| > 0 && DateColumn in op.header && dayOf(Get(op.records[0], DateColumn)).Some?
      && CodeColumn !in op.header
    ensures r == Err(MissingColumn(QuantityColumn(Classify(op.header)))) <==>
      && |op.records| > 0 && DateColumn in op.header && dayOf(Get(op.records[0], DateColumn)).Some?
      && CodeColumn in op.header && QuantityColumn(Classify(op.header)) !in op.header
    ensures r == Err(NonNumericQuantity) <==>
      && |op.records| > 0 && DateColumn in op.header && dayOf(Get(op.records[0], DateColumn)).Some?
      && CodeColumn in op.header && QuantityColumn(Classify(op.header)) in op.header
      && !QuantitiesNumeric(op.records, QuantityColumn(Classify(op.header)))
    ensures r.Ok? <==>
      && |op.records| > 0 && DateColumn in op.header && dayOf(Get(op.records[0], DateColumn)).Some?
      && CodeColumn in op.header && QuantityColumn(Classify(op.header)) in op.header
      && QuantitiesNumeric(op.records, QuantityColumn(Classify(op.header)))
    ensures r.Ok? ==>
      && (r.value.direction == Outbound <==> OutboundMarker in op.header)
      && r.value.column == ColumnName(dayOf(Get(op.records[0], DateColumn)).value, r.value.direction)
      && ParseColumnName(r.value.column) == Some((dayOf(Get(op.records[0], DateColumn)).value as nat, r.value.direction))
      && Distinct(r.value.totals)
      && KeySet(r.value.totals) == CodesOf(op.records)
      && (forall c :: c != Empty ==> SumOf(r.value.totals, c) == TotalFor(op.records, c, QuantityColumn(r.value.direction)))
      && (r.value.floatRows <==> FloatRows(op.records, QuantityColumn(r.value.direction)))
  {
    if |op.records| == 0 then Err(NoOperationRows)
    else if DateColumn !in op.header then Err(MissingColumn(DateColumn))
    else
      match dayOf(Get(op.records[0], DateColumn))
      case None => Err(UnparsableDate)
      case Some(day) =>
        var d := Classify(op.header);
        var quantity := QuantityColumn(d);
        if CodeColumn !in op.header then Err(MissingColumn(CodeColumn))
        else if quantity !in op.header then Err(MissingColumn(quantity))
        else if !QuantitiesNumeric(op.records, quantity) then Err(NonNumericQuantity)
        else
          ColumnNameRoundTrip(day, d);
          Ok(Plan(d, ColumnName(day, d), Aggregate(op.records, quantity), FloatRows(op.records, quantity)))
  }
}
