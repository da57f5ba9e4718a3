# Inventory reconciliation, modelled in Dafny

This project models the reconciliation step of the inventory manager. In the
source this is `InventoryManager.update_inventory`. It reads one warehouse
operation file and one inventory sheet. It decides whether the file records
outbound (出库) or inbound operations. It sums the file's quantities per product
code (商品编码). It then writes each sum into the inventory column
`"<day>日出库"` or `"<day>日进库"` of every row whose code (新商品编码)
matches.

Modules:

- `Cells` (cells.dfy): a sheet cell is `Empty` (pandas reads it as NaN),
  `Int` or `Text`. A row maps column names to cells. A column missing from
  the map is an empty cell. The module also gives Python's decimal text of
  integers (`str(n)`, f-strings). That text is canonical (no leading zero), and
  the module proves the round trip through a parser and the uniqueness of
  canonical text. `CodeText` is `str` of a product code read from a grouped
  row, which is an integer code's digits with ".0" appended when pandas holds
  the row as floating point.
- `Operation` (operation.dfy): direction detection, the destination column
  name with its inverse `ParseColumnName`, and group-and-sum (`AddTo`,
  `Aggregate`). Each grouped sum is proved equal to an independent reference
  sum `TotalFor`. `FloatRows` is pandas' rule for when the grouped rows are
  floating point. `Prepare` runs these steps in the source's order and
  returns `Err` wherever the source raises.
- `Reconcile` (reconcile.dfy): the update loop. `Entries` is the grouped
  table as the loop reads it, each code already turned into text. `ApplyTotal`
  and `ApplyAll` are the specification functions. `ApplyTotals` is the in-place loop over an
  `array<Row>` that returns the two counters. `UpdateInventory` is the whole
  run.
- `Scenarios` (scenarios.dfy): concrete sheets with what the model yields
  for them, proved as lemmas.

Behaviour of the code that the model keeps:

- Codes are matched as text. The code column's cell must equal the text
  `str(code)`. A grouped code that is the number 1001 therefore matches an
  inventory cell holding the text "1001". It never matches one holding the
  number 1001, because pandas compares a numeric column with a string as
  unequal (`Scenarios.NumericInventoryCodeNotFound`).
- Rows with an empty product code are dropped by the grouping (pandas' default
  `dropna`). An empty quantity cell adds 0 to its code's sum.
- An empty cell also changes how codes are written as text. pandas reads a
  numeric column that has an empty cell as floating point. If the code column
  is such a column, the grouped codes are floats. If the quantity column is,
  the sums are floats, and `iterrows` turns each row of integer code and float
  sum into a float row. Either way `str` of the code 1001 is "1001.0".
  An inventory cell holding the text "1001" does not match it, so the code is
  counted as not found (`Scenarios.BlankQuantityPlan`,
  `Scenarios.BlankQuantityNotFound`). This holds whichever row has the empty
  cell, because pandas picks one type for a whole column.
- The write overwrites the cell; it does not add to it. Every matching row is
  written. `updated_count` goes up by one per code, however many rows match.
- The inventory's 新商品编码 column is read only inside the loop. So a missing
  column fails the run only when there is at least one grouped code. With no
  codes, the sheet is saved unchanged.
- A destination column that does not exist yet is created (appended to the
  columns) only when at least one code is found. Every cell of the saved sheet
  lies in one of its columns.
- None of the source's error paths writes the sheet.

## Model

| member | source | states |
|---|---|---|
| `Operation.ColumnName` | src/inventory_manager.py:102 | the destination name is the day's canonical decimal digits, then 日, then 出库 exactly for outbound and 进库 exactly for inbound |
| `Operation.ColumnNameRoundTrip` | src/inventory_manager.py:102 | the destination name "<day>日出库"/"<day>日进库" parses back to the day and direction it was built from |
| `Operation.ParseColumnNameInverse` | src/inventory_manager.py:102 | a name that parses to a day and a direction is exactly the name built from them, so the parse pins the name |
| `Operation.ColumnNameInjective` | src/inventory_manager.py:102 | two different (day, direction) pairs never name the same column |
| `Cells.NatToString` | src/inventory_manager.py:102 | the interpolated day is canonical decimal text (digits, no leading zero), and is "0" only for 0 |
| `Cells.ParseNatToString` | src/inventory_manager.py:102 | reading the decimal text of a number back gives the number |
| `Cells.CanonicalIsNatToString` | src/inventory_manager.py:102 | canonical decimal text is unique: it is the text of the number it denotes |
| `Cells.IntToString` | src/inventory_manager.py:107 | `str` of an integer starts with a minus sign exactly for negative numbers; the rest is the canonical decimal text of its magnitude |
| `Cells.IntToStringInjective` | src/inventory_manager.py:107 | different integer codes have different text forms |
| `Cells.IntTextHasNoPoint` | src/inventory_manager.py:107 | `str` of an integer never contains a decimal point |
| `Cells.CodeText` | src/inventory_manager.py:106-107 | `str` of a text code is the code itself; `str` of an integer code is the integer's text followed by ".0" in a floating point row and by nothing otherwise, so it contains a decimal point exactly when the row is floating point |
| `Operation.AddTo` | src/inventory_manager.py:96-98 | adding a quantity to a code's total: the key set gains the code, keys stay distinct, and only that code's sum grows by the quantity |
| `Operation.Aggregate` | src/inventory_manager.py:95-99 | each non-empty code of the file appears once; rows with an empty code are dropped; each code's sum equals the reference sum of its rows' quantities, where an empty quantity adds 0 |
| `Operation.AggregateTotals` | src/inventory_manager.py:95-99 | every grouped entry carries a code of the file, and its quantity is the sum of that code's rows |
| `Operation.AggregateCount` | src/inventory_manager.py:96-98 | the number of grouped entries is the number of distinct non-empty codes |
| `Operation.Prepare` | src/inventory_manager.py:86-102 | each error case holds exactly under its condition, in source order (no rows, no 创建日期, unparsable date, no 商品编码, no quantity column, non-numeric quantity); on success the direction is outbound exactly when the header has 出库单号, the column is the name built from the first row's day and the direction, the totals are the per-code sums of 数量 (outbound) or 调拨数量 (inbound), and the rows are floating point exactly under pandas' rule |
| `Reconcile.EntryCodesDistinct` | src/inventory_manager.py:106-107 | distinct grouped codes that are all numbers, or all text, give the loop distinct code texts (a number and a text can give the same one) |
| `Reconcile.EntryTotalsWritten` | src/inventory_manager.py:106-110 | with codes all numbers or all text, every inventory row carrying a code's text ends holding that code's total |
| `Reconcile.ApplyTotal` | src/inventory_manager.py:107-110 | one write: rows whose 新商品编码 cell is the code's text get the total in the destination column, other columns and non-matching rows keep their values, and the row count is unchanged |
| `Reconcile.ApplyAll` | src/inventory_manager.py:106-110 | the loop keeps the number of inventory rows |
| `Reconcile.CountFound` | src/inventory_manager.py:109-115 | the found count never exceeds the number of grouped codes |
| `Reconcile.NotFoundLeavesTable` | src/inventory_manager.py:113-115 | a code matching no row leaves the table exactly as it was |
| `Reconcile.OtherColumnsUnchanged` | src/inventory_manager.py:110 | every column other than the destination column keeps its value in every row |
| `Reconcile.UnmatchedRowUnchanged` | src/inventory_manager.py:108-110 | a row whose code matches none of the grouped codes is left exactly as it was |
| `Reconcile.CodesUnchanged` | src/inventory_manager.py:108 | the loop never changes the code column, so a code matches the same rows at every step |
| `Reconcile.MatchedRowOverwritten` | src/inventory_manager.py:106-110 | a matching row ends with its code's total in the destination cell whatever it held before; where two codes have the same text, the later one wins |
| `Reconcile.MatchedRowHoldsTotal` | src/inventory_manager.py:106-110 | when the codes' texts are distinct, every matching row holds exactly its code's total |
| `Reconcile.CountFoundIsFoundCodes` | src/inventory_manager.py:109-111 | `updated_count` is the number of grouped codes with at least one matching row, one per code however many rows match |
| `Reconcile.ApplyAllKeys` | src/inventory_manager.py:110 | a row gains no column but the destination column, and gains that one only when some code was found |
| `Reconcile.ApplyTotals` | src/inventory_manager.py:103-115 | the loop leaves the array equal to `ApplyAll` of the old rows; `updated_count` is the found count and `updated_count + not_found_count` is the number of grouped codes |
| `Reconcile.UpdateInventory` | src/inventory_manager.py:76-118 | no file chosen gives `NotSelected`; every error leaves the table unchanged and is the error `Prepare` reports, or a missing 新商品编码 column when there are codes; on success the table is `ApplyAll` of the old one over the entries, the two counters add up to the number of distinct codes, the destination column is appended only when it is new and something was updated, and every saved cell lies in a saved column |
| `Scenarios.OutboundTwoRowsPlan` | src/inventory_manager.py:86-102 | two outbound rows for code 1001 with quantities 3 and 2, created on the 3rd, give one total of 5 for column "3日出库", with integer rows |
| `Scenarios.Code1001Text` | src/inventory_manager.py:107 | `str` of the code 1001 is "1001" in an integer row and "1001.0" in a floating point row |
| `Scenarios.OutboundTwoRowsEntries` | src/inventory_manager.py:106-107 | with integer rows the loop reads that total's code as "1001" |
| `Scenarios.OutboundTwoRowsWrite` | src/inventory_manager.py:106-110 | that total replaces the old 9 in the row whose code cell is the text "1001" and leaves the row for "2002" as it was |
| `Scenarios.NumericInventoryCodeNotFound` | src/inventory_manager.py:107-115 | an inventory code held as a number never matches the text form of a code, so the code counts as not found and the table is unchanged |
| `Scenarios.BlankQuantityPlan` | src/inventory_manager.py:86-102 | rows for code 1001 with quantities 3 and empty give one total of 3, and the grouped rows are floating point |
| `Scenarios.BlankQuantityNotFound` | src/inventory_manager.py:106-115 | in floating point rows the loop reads the code as "1001.0", which the inventory's text "1001" does not match: not found, table unchanged |

## Left out

- The Tkinter window, file dialogs, message boxes, the log text widget and the log and summary messages (src/inventory_manager.py:9-74, 112, 115, 120-127, 134-139): these are user interface.
- `pd.read_excel` and `to_excel` (src/inventory_manager.py:83-84, 118): file I/O. The sheets are inputs (`columns`, `rows`, `OperationFile`). A `Saved` outcome stands for the write of `rows` and the returned columns. A failing read or write is not modelled.
- `pd.to_datetime(...).day` (src/inventory_manager.py:88): a library call. It is the parameter `dayOf`, where `None` means the call raises. What it returns for an empty cell (NaT) is not modelled.
- `datetime.now()` in log lines: a clock read that only feeds the log.
- The catch-all `except` (src/inventory_manager.py:129-132) only reports through the user interface. The exceptions the reconciliation itself can raise are the `Failed` outcome.
- Cell types: a cell is empty, a whole number or text. Fractional numbers in a sheet are not modelled. A float sum is written as the whole number it equals.
- Cells.CodeText: gives "<digits>.0" for every integer code in a floating point row. Python writes floats of magnitude 10^16 or more in exponent form, and floats lose integer precision above 2^53. Neither is modelled.
- Reconcile.UpdateInventory: requires every cell of an inventory row to lie in one of the given columns, as in a DataFrame.
- Operation.Aggregate: pandas sums an integer column in 64 bits, and a sum past 2^63-1 wraps around. The model's sums (`Amount`, `AddTo`, `TotalFor`) are unbounded integers, and integer cells are unbounded too.
- Operation.Aggregate: keeps the grouped codes in first-appearance order, while pandas sorts them. The order shows only in the log, and in which of two codes with the same text form (the number 1001 and the text "1001") writes last.
- Operation.Prepare: a text quantity in a grouped row is always the error `NonNumericQuantity`. pandas raises when it adds text to a number, but a group made only of text cells would be concatenated instead.
