/** Spreadsheet cells and rows as the reconciliation reads them from Excel
    sheets, and Python's decimal text form of whole numbers (`str(n)` and
    f-string interpolation). */
module Cells {

  datatype Option<T> = None | Some(value: T)

  /** A cell of a sheet: empty (pandas reads it as NaN), a whole number, or text. */
  datatype Cell = Empty | Int(n: int) | Text(s: string)

  /** A row of a sheet, from column name to cell. A column the row has no
      entry for holds an empty cell. */
  type Row = map<string, Cell>

  function Get(row: Row, column: string): Cell
  {
    if column in row then row[column] else Empty
  }

  predicate IsDigit(ch: char)
  {
    '0' <= ch <= '9'
  }

  predicate AllDigits(s: string)
  {
    forall i :: 0 <= i < |s| ==> IsDigit(s[i])
  }

  function DigitChar(d: nat): (ch: char)
    requires d < 10
    ensures IsDigit(ch)
  {
    (48 + d) as char
  }

  function DigitValue(ch: char): (d: nat)
    requires IsDigit(ch)
    ensures d < 10
  {
    ch as int - 48
  }

  /** The decimal text Python writes for a natural number: digits only, and
      no leading zero except in "0" itself. */
  predicate Canonical(s: string)
  {
    |s| > 0 && AllDigits(s) && (s[0] != '0' || |s| == 1)
  }

  /** The decimal digits of `n`, most significant first, without leading zeros. */
  function NatToString(n: nat): (s: string)
    ensures Canonical(s)
    ensures s == "0" <==> n == 0
  {
    if n < 10 then [DigitChar(n)] else NatToString(n / 10) + [DigitChar(n % 10)]
  }

  /** The number a string of decimal digits denotes. */
  function ParseNat(s: string): nat
    requires AllDigits(s)
  {
    if |s| == 0 then 0 else ParseNat(s[..|s| - 1]) * 10 + DigitValue(s[|s| - 1])
  }

  /** Reading back the decimal text of a number gives the number. */
  lemma {:induction false} ParseNatToString(n: nat)
    ensures ParseNat(NatToString(n)) == n
  {
    var s := NatToString(n);
    if n >= 10 {
      var prefix := NatToString(n / 10);
      assert s[..|s| - 1] == prefix;
      ParseNatToString(n / 10);
    }
  }

  /** Digits that do not start with a zero denote a positive number. */
  lemma {:induction false} ParseNatPositive(s: string)
    requires |s| > 0 && AllDigits(s) && s[0] != '0'
    ensures ParseNat(s) >= 1
  {
    if |s| > 1 {
      var prefix := s[..|s| - 1];
      assert prefix[0] == s[0];
      ParseNatPositive(prefix);
    }
  }

  /** Canonical decimal text is unique: it is the text of the number it denotes. */
  lemma {:induction false} CanonicalIsNatToString(s: string)
    requires Canonical(s)
    ensures NatToString(ParseNat(s)) == s
  {
    var last := s[|s| - 1];
    if |s| == 1 {
      assert DigitChar(DigitValue(last)) == last;
      assert s == [last];
    } else {
      var prefix := s[..|s| - 1];
      assert prefix[0] == s[0];
      assert Canonical(prefix);
      ParseNatPositive(prefix);
      CanonicalIsNatToString(prefix);
      var n := ParseNat(s);
      assert n / 10 == ParseNat(prefix) && n % 10 == DigitValue(last);
      assert DigitChar(DigitValue(last)) == last;
      assert s == prefix + [last];
    }
  }

  /** Python's `str` of an integer: a minus sign before the digits of a
      negative one, then the canonical digits of its magnitude. */
  function IntToString(i: int): (s: string)
    ensures |s| > 0
    ensures s[0] == '-' <==> i < 0
    ensures var digits := if i < 0 then s[1..] else s; Canonical(digits) && ParseNat(digits) == if i < 0 then -i else i
  {
    if i < 0 then
      var s := "-" + NatToString(-i);
      assert s[1..] == NatToString(-i);
      ParseNatToString(-i);
      s
    else
      ParseNatToString(i);
      NatToString(i)
  }

  /** Distinct integers have distinct `str` texts. */
  lemma IntToStringInjective(i: int, j: int)
    requires IntToString(i) == IntToString(j)
    ensures i == j
  {
    var s := IntToString(i);
    if i < 0 && j < 0 {
      assert ParseNat(s[1..]) == -i == -j;
    } else if i >= 0 && j >= 0 {
      assert ParseNat(s) == i == j;
    }
  }

  /** The text of an integer has no decimal point. */
  lemma IntTextHasNoPoint(i: int)
    ensures '.' !in IntToString(i)
  {
    var s := IntToString(i);
    var digits := if i < 0 then s[1..] else s;
    forall k | 0 <= k < |s| ensures s[k] != '.' {
      if i < 0 && k > 0 {
        assert s[k] == digits[k - 1];
      }
    }
  }

  /** Python's `str` of a product code read from a row of the grouped table.
      When pandas holds that row as floating point, an integer code reads as a
      float, whose text adds ".0" to the integer's digits; text is itself; an
      empty cell is "nan". */
  function CodeText(c: Cell, floatRow: bool): (s: string)
    ensures c.Text? ==> s == c.s
    ensures c.Int? ==> |IntToString(c.n)| <= |s| && s[..|IntToString(c.n)|] == IntToString(c.n)
    ensures c.Int? ==> s[|IntToString(c.n)|..] == if floatRow then ".0" else ""
    ensures c.Int? ==> ('.' in s <==> floatRow)
  {
    match c
    case Empty => "nan"
    case Int(n) =>
      IntTextHasNoPoint(n);
      if floatRow then
        var s := IntToString(n) + ".0";
        assert s[|IntToString(n)|] == '.';
        s
      else IntToString(n)
    case Text(s) => s
  }
}
