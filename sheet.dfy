/** A spreadsheet as pandas hands it to the normalizer: a header of column
    names and rows of optional cell values, plus the two pandas operations the
    normalizer applies to a column: `fillna('')` and `astype(str)`. */
module Sheet {

  datatype Option<+T> = None | Some(value: T)

  /** A cell value: text, or a whole number as an integer column holds it. */
  datatype Cell = Str(s: string) | Int(n: int)

  /** A table read from one file. `header[k]` names column `k`; a row holds
      `None` for an empty cell, and a row shorter than the header reads as
      empty in its missing trailing columns. */
  datatype Table = Table(header: seq<string>, rows: seq<seq<Option<Cell>>>)

  /** The value of one decimal digit character. */
  function DigitValue(c: char): int {
    c as int - '0' as int
  }

  predicate IsDigits(s: string) {
    forall k :: 0 <= k < |s| ==> '0' <= s[k] <= '9'
  }

  /** The number a string of decimal digits denotes, most significant first. */
  function DecimalValue(s: string): nat
    requires IsDigits(s)
  {
    if s == [] then 0 else DecimalValue(s[..|s| - 1]) * 10 + DigitValue(s[|s| - 1])
  }

  /** The text of one decimal digit. */
  function DigitChar(d: nat): (c: char)
    requires d < 10
    ensures '0' <= c <= '9' && DigitValue(c) == d
  {
    ('0' as int + d) as char
  }

  /** The decimal digits of `n`, most significant first, without leading
      zeros: a digit string denoting `n`. DigitsCanonical shows it is the only
      one. */
  function Digits(n: nat): (s: string)
    ensures s != [] && IsDigits(s)
    ensures DecimalValue(s) == n
    ensures s[0] == '0' <==> n == 0
    ensures s[0] == '0' ==> |s| == 1
    decreases n
  {
    if n < 10 then [DigitChar(n)]
    else
      var p := Digits(n / 10);
      var s := p + [DigitChar(n % 10)];
      assert s[..|s| - 1] == p;
      s
  }

  /** A digit string is at least its leading digit. */
  lemma {:induction false} LeadingDigitBound(s: string)
    requires s != [] && IsDigits(s)
    ensures DecimalValue(s) >= DigitValue(s[0])
  {
    if |s| > 1 {
      var p := s[..|s| - 1];
      LeadingDigitBound(p);
      assert p[0] == s[0];
    }
  }

  /** Every digit string without a leading zero (or "0" itself) is the
      `Digits` of its value: the decimal text of a number is unique. */
  lemma {:induction false} DigitsCanonical(s: string)
    requires s != [] && IsDigits(s)
    requires s[0] == '0' ==> |s| == 1
    ensures Digits(DecimalValue(s)) == s
  {
    var n := DecimalValue(s);
    var c := s[|s| - 1];
    if |s| == 1 {
      assert s[..0] == [];
      assert DigitChar(DigitValue(c)) == c;
    } else {
      var p := s[..|s| - 1];
      assert p[0] == s[0];
      LeadingDigitBound(p);
      DigitsCanonical(p);
      assert n / 10 == DecimalValue(p) && n % 10 == DigitValue(c);
      assert DigitChar(DigitValue(c)) == c;
      assert s == p + [c];
    }
  }

  /** `str(value)` as `astype(str)` applies it to one cell: text is kept
      character for character, an integer is written in decimal without
      leading zeros, after a `-` when it is negative (by DigitsCanonical,
      the only such text). */
  function ToText(c: Cell): (s: string)
    ensures c.Str? ==> s == c.s
    ensures c.Int? && c.n >= 0 ==>
      IsDigits(s) && s != [] && DecimalValue(s) == c.n && (s[0] == '0' <==> c.n == 0) &&
      (s[0] == '0' ==> |s| == 1)
    ensures c.Int? && c.n < 0 ==>
      |s| >= 2 && s[0] == '-' && s[1] != '0' && IsDigits(s[1..]) && DecimalValue(s[1..]) == -c.n
    ensures c.Int? ==> s == if c.n < 0 then "-" + Digits(-c.n) else Digits(c.n)
  {
    match c
    case Str(s) => s
    case Int(n) =>
      if n < 0 then
        var s := "-" + Digits(-n);
        assert s[1..] == Digits(-n);
        s
      else Digits(n)
  }

  /** `fillna('')` on one cell: an empty cell becomes the empty text. */
  function OrEmpty(c: Option<Cell>): (v: Cell)
    ensures c.Some? ==> v == c.value
    ensures c.None? ==> v == Str("")
  {
    match c
    case None => Str("")
    case Some(v) => v
  }

  /** `fillna('').astype(str)` on one cell. */
  function TextOrEmpty(c: Option<Cell>): (s: string)
    ensures c.None? ==> s == ""
    ensures c.Some? ==> s == ToText(c.value)
  {
    ToText(OrEmpty(c))
  }

  /** The position of the first column called `name`, or -1 if there is none. */
  function IndexOf(header: seq<string>, name: string): (i: int)
    ensures -1 <= i < |header|
    ensures i >= 0 ==> header[i] == name
    ensures forall k :: 0 <= k < |header| && (i < 0 || k < i) ==> header[k] != name
  {
    if header == [] then -1
    else if header[0] == name then 0
    else
      var j := IndexOf(header[1..], name);
      if j < 0 then -1 else j + 1
  }

  /** The cell of `row` in the column called `name` (`df[name]` at that row):
      the cell under the first column with that name, empty when there is no
      such column or the row is too short. */
  function CellAt(header: seq<string>, row: seq<Option<Cell>>, name: string): (c: Option<Cell>)
    ensures name !in header ==> c.None?
    ensures IndexOf(header, name) >= |row| ==> c.None?
    ensures forall k :: 0 <= k < |row| && k < |header| && header[k] == name && name !in header[..k] ==>
              c == row[k]
  {
    var i := IndexOf(header, name);
    if 0 <= i < |row| then row[i] else None
  }

  /** The set of column names of a header, as `set(df.columns)`. */
  function Columns(header: seq<string>): (cols: set<string>)
    ensures forall name :: name in cols <==> name in header
  {
    set k | 0 <= k < |header| :: header[k]
  }
}
