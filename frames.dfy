/**
 * The record-table vocabulary shared by the service: a cell value as pandas
 * holds it (a string, a number, or NaN), a row as a map from column name to
 * value, a table as a set of column names and a sequence of rows, and the
 * numeric coercion that `pd.to_numeric(..., errors="coerce")` performs.
 */
module Frames {

  datatype Option<+T> = None | Some(value: T)

  datatype Result<+T> = Success(value: T) | Failure(error: string)

  /** One cell. `Missing` is pandas' NaN: an absent entry or a failed coercion. */
  datatype Value = Str(s: string) | Num(x: real) | Missing

  type Row = map<string, Value>

  /** A DataFrame: every row has exactly the table's columns. */
  datatype Table = Table(columns: set<string>, rows: seq<Row>)

  predicate Rectangular(t: Table) {
    forall i :: 0 <= i < |t.rows| ==> t.rows[i].Keys == t.columns
  }

  /** A cell that arithmetic and ordering comparisons accept (a number or NaN). */
  predicate Numeric(v: Value) {
    !v.Str?
  }

  /** `row.get(key, default)` on a pandas row. */
  function Get(row: Row, key: string, default: Value): (v: Value)
    ensures key in row ==> v == row[key]
    ensures key !in row ==> v == default
  {
    if key in row then row[key] else default
  }

  /** The values of one column, top to bottom. */
  function Column(t: Table, c: string): (col: seq<Value>)
    requires Rectangular(t) && c in t.columns
    ensures |col| == |t.rows|
    ensures forall i :: 0 <= i < |t.rows| ==> col[i] == t.rows[i][c]
  {
    seq(|t.rows|, i requires 0 <= i < |t.rows| => t.rows[i][c])
  }

  /** Python's `a > c` with NaN on the left: false. */
  predicate Greater(v: Value, c: real)
    requires Numeric(v)
  {
    v.Num? && v.x > c
  }

  /** Python's `a < c` with NaN on the left: false. */
  predicate Less(v: Value, c: real)
    requires Numeric(v)
  {
    v.Num? && v.x < c
  }

  /** Elementwise `a * b` on two numeric cells; NaN is absorbing. */
  function Times(a: Value, b: Value): (r: Value)
    requires Numeric(a) && Numeric(b)
    ensures r.Num? <==> a.Num? && b.Num?
    ensures r.Num? ==> r.x == a.x * b.x
  {
    if a.Num? && b.Num? then Num(a.x * b.x) else Missing
  }

  /** Elementwise `a / b` on two numeric cells whose divisor is never zero. */
  function Divide(a: Value, b: Value): (r: Value)
    requires Numeric(a) && Numeric(b) && b != Num(0.0)
    ensures r.Num? <==> a.Num? && b.Num?
    ensures r.Num? ==> r.x * b.x == a.x
  {
    if a.Num? && b.Num? then Num(a.x / b.x) else Missing
  }

  // ---------------------------------------------------------------------
  // pd.DataFrame(list_of_dicts): the columns are every key seen in any record
  // and a record that lacks a column gets NaN there.

  function KeysOf(records: seq<Row>): (ks: set<string>)
    ensures forall i, k :: 0 <= i < |records| && k in records[i] ==> k in ks
    ensures forall k :: k in ks ==> exists i :: 0 <= i < |records| && k in records[i]
  {
    if records == [] then {}
    else
      var rest := KeysOf(records[1..]);
      assert forall k :: k in rest ==> exists i :: 1 <= i < |records| && k in records[i] by {
        forall k | k in rest ensures exists i :: 1 <= i < |records| && k in records[i] {
          var j :| 0 <= j < |records[1..]| && k in records[1..][j];
          assert k in records[j + 1];
        }
      }
      records[0].Keys + rest
  }

  function Fill(record: Row, columns: set<string>): (row: Row)
    requires record.Keys <= columns
    ensures row.Keys == columns
    ensures forall k :: k in columns ==> row[k] == Get(record, k, Missing)
  {
    map k | k in columns :: Get(record, k, Missing)
  }

  function FromRecords(records: seq<Row>): (t: Table)
    ensures Rectangular(t) && |t.rows| == |records|
    ensures forall i, k :: 0 <= i < |records| && k in records[i] ==> k in t.columns && t.rows[i][k] == records[i][k]
    ensures forall i, k :: 0 <= i < |records| && k in t.columns && k !in records[i] ==> t.rows[i][k] == Missing
    ensures forall k :: k in t.columns ==> exists i :: 0 <= i < |records| && k in records[i]
  {
    var columns := KeysOf(records);
    Table(columns, seq(|records|, i requires 0 <= i < |records| => Fill(records[i], columns)))
  }

  // ---------------------------------------------------------------------
  // pd.to_numeric(..., errors="coerce"): numbers pass, NaN stays NaN, and a
  // string becomes the number it spells in plain decimal notation, or NaN.

  predicate IsDigit(ch: char) {
    '0' <= ch <= '9'
  }

  predicate AllDigits(s: string) {
    forall i :: 0 <= i < |s| ==> IsDigit(s[i])
  }

  function DigitValue(ch: char): (d: nat)
    requires IsDigit(ch)
    ensures d < 10
  {
    (ch as int - '0' as int) as nat
  }

  /** The number a run of decimal digits spells, most significant first. */
  function DigitsValue(s: string): (v: nat)
    requires AllDigits(s)
  {
    if s == [] then 0 else DigitsValue(s[..|s| - 1]) * 10 + DigitValue(s[|s| - 1])
  }

  function Pow10(n: nat): (p: nat)
    ensures p >= 1
  {
    if n == 0 then 1 else 10 * Pow10(n - 1)
  }

  function IndexOf(s: string, ch: char): (k: nat)
    ensures k <= |s|
    ensures k < |s| ==> s[k] == ch
    ensures forall i :: 0 <= i < k ==> s[i] != ch
  {
    if s == [] then 0
    else if s[0] == ch then 0
    else 1 + IndexOf(s[1..], ch)
  }

  /** Digits with at most one decimal point and at least one digit: "12", "12.5", ".5", "5.". */
  function ParseUnsigned(s: string): (r: Option<real>)
    ensures r.Some? ==> r.value >= 0.0
  {
    var k := IndexOf(s, '.');
    var whole := s[..k];
    var frac := if k < |s| then s[k + 1..] else "";
    if AllDigits(whole) && AllDigits(frac) && |whole| + |frac| > 0 then
      Some(DigitsValue(whole) as real + DigitsValue(frac) as real / Pow10(|frac|) as real)
    else None
  }

  function ParseDecimal(s: string): (r: Option<real>)
    ensures s == [] ==> r == None
  {
    if |s| > 0 && (s[0] == '-' || s[0] == '+') then
      match ParseUnsigned(s[1..])
      case Some(v) => Some(if s[0] == '-' then -v else v)
      case None => None
    else ParseUnsigned(s)
  }

  function ToNumeric(v: Value): (r: Option<real>)
    ensures v.Num? ==> r == Some(v.x)
    ensures v.Missing? ==> r == None
  {
    match v
    case Num(x) => Some(x)
    case Missing => None
    case Str(s) => ParseDecimal(s)
  }

  /** `to_numeric(errors="coerce")` on one cell, NaN where it fails. */
  function CoerceNumeric(v: Value): (r: Value)
    ensures Numeric(r)
    ensures r.Num? <==> ToNumeric(v).Some?
    ensures r.Num? ==> r.x == ToNumeric(v).value
  {
    match ToNumeric(v)
    case Some(x) => Num(x)
    case None => Missing
  }

  // The decimal spelling of an integer, the partner of the parser above.

  function Digit(d: nat): (ch: char)
    requires d < 10
    ensures IsDigit(ch) && DigitValue(ch) == d
  {
    ('0' as int + d) as char
  }

  function FormatNat(n: nat): (s: string)
    ensures |s| > 0 && AllDigits(s)
  {
    if n < 10 then [Digit(n)] else FormatNat(n / 10) + [Digit(n % 10)]
  }

  function FormatInt(i: int): (s: string) {
    if i < 0 then "-" + FormatNat(-i) else FormatNat(i)
  }

  lemma {:induction false} DigitsOfFormat(n: nat)
    ensures DigitsValue(FormatNat(n)) == n
  {
    if n >= 10 {
      var s := FormatNat(n);
      assert s[..|s| - 1] == FormatNat(n / 10);
      DigitsOfFormat(n / 10);
    }
  }

  lemma NoPointInDigits(s: string)
    requires AllDigits(s)
    ensures IndexOf(s, '.') == |s|
  {
  }

  /** Coercion reads back the decimal spelling of every integer. */
  lemma ParseFormatInt(i: int)
    ensures ParseDecimal(FormatInt(i)) == Some(i as real)
  {
    var digits := FormatNat(if i < 0 then -i else i);
    NoPointInDigits(digits);
    DigitsOfFormat(if i < 0 then -i else i);
    assert digits[..IndexOf(digits, '.')] == digits;
    assert ParseUnsigned(digits) == Some((if i < 0 then -i else i) as real);
    if i < 0 {
      assert FormatInt(i)[1..] == digits;
    } else {
      assert IsDigit(digits[0]);
    }
  }
}
