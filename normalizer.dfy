/** `process_file`: turns one input file into normalized
    (Name, Email, Phone Number) rows, or skips it. */
module Normalizer {
  import opened Text
  import opened Sheet

  /** One output row. Layout A writes Name and Email as text; Layout B passes
      them through as the input cells (with empty cells as ""). The phone
      number is always text. */
  datatype Contact = Contact(name: Cell, email: Cell, phone: string)

  /** What reading the file with the engine its suffix selects (xlrd for
      `.xls`, openpyxl for `.xlsx`) gives: a table, or an exception. */
  datatype ReadOutcome = Parsed(table: Table) | ReadFailed

  /** An input file: its name (the last path component) and what reading it gives. */
  datatype SourceFile = SourceFile(name: string, contents: ReadOutcome)

  datatype Layout = LayoutA | LayoutB | Unrecognized

  /** Why a file contributes nothing; each reason has its own log message.
      `ReadError` is an exception while reading; `ProcessingError` one while
      building the output columns (the same `except` branch catches both). */
  datatype SkipReason = TemporaryFile | UnsupportedType | ReadError | MissingColumns | ProcessingError

  /** `(processed_df, total_rows)` for an accepted file; `(None, 0)` for a skipped one. */
  datatype FileResult = Accepted(rows: seq<Contact>, count: nat) | Skipped(reason: SkipReason) {
    function Count(): nat {
      if Accepted? then count else 0
    }
  }

  const TempPrefix := "~$"

  const LayoutAColumns: set<string> := {"First Name", "Last Name", "Email Address", "Cell Phone"}

  const LayoutBColumns: set<string> :=
    {"Buyer Name", "Buyer Email", "Buyer Contact", "FULL NAME", "E-MAIL ADDRESS", "MOBILE NUMBER"}

  /** The two suffixes the source reads: ".xls", optionally followed by "x".
      The comparison is exact, so case matters. */
  predicate IsExcelSuffix(suffix: string): (b: bool)
    ensures b <==> StartsWith(suffix, ".xls") && (|suffix| == 4 || suffix[4..] == "x")
  {
    suffix == ".xls" || suffix == ".xlsx"
  }

  /** `df.columns = df.columns.str.strip()`: every column name stripped, in place. */
  function StripColumns(t: Table): (r: Table)
    ensures |r.header| == |t.header| && r.rows == t.rows
    ensures forall k :: 0 <= k < |t.header| ==> r.header[k] == Strip(t.header[k])
  {
    Table(seq(|t.header|, k requires 0 <= k < |t.header| => Strip(t.header[k])), t.rows)
  }

  /** The layout a set of (stripped) column names selects: Layout A is tested
      first, so it wins when both column sets are present. */
  function DetectLayout(columns: set<string>): (l: Layout)
    ensures l == LayoutA <==> LayoutAColumns <= columns
    ensures l == LayoutB <==> !(LayoutAColumns <= columns) && LayoutBColumns <= columns
  {
    if LayoutAColumns <= columns then LayoutA
    else if LayoutBColumns <= columns then LayoutB
    else Unrecognized
  }

  /** Layout A: one contact per input row, in input order. The name is the
      first and last name as text joined by one space. */
  function NormalizeA(header: seq<string>, rows: seq<seq<Option<Cell>>>): (out: seq<Contact>)
    ensures |out| == |rows|
    ensures forall i :: 0 <= i < |rows| ==>
      out[i] == Contact(
        Str(TextOrEmpty(CellAt(header, rows[i], "First Name")) + " "
            + TextOrEmpty(CellAt(header, rows[i], "Last Name"))),
        Str(TextOrEmpty(CellAt(header, rows[i], "Email Address"))),
        TextOrEmpty(CellAt(header, rows[i], "Cell Phone")))
  {
    if rows == [] then []
    else
      var row := rows[0];
      var first := TextOrEmpty(CellAt(header, row, "First Name"));
      var last := TextOrEmpty(CellAt(header, row, "Last Name"));
      [Contact(Str(first + " " + last),
               Str(TextOrEmpty(CellAt(header, row, "Email Address"))),
               TextOrEmpty(CellAt(header, row, "Cell Phone")))]
      + NormalizeA(header, rows[1..])
  }

  /** The contact one row gives for one of Layout B's column triples: name
      and email cells with empty cells as "", the phone number as text. */
  function TripleContact(header: seq<string>, row: seq<Option<Cell>>,
                         nameCol: string, emailCol: string, phoneCol: string): Contact
  {
    Contact(OrEmpty(CellAt(header, row, nameCol)),
            OrEmpty(CellAt(header, row, emailCol)),
            TextOrEmpty(CellAt(header, row, phoneCol)))
  }

  /** Which cells a Layout B contact is made of: the cell under the first
      column of each name of the triple (empty as ""), and all empty when the
      column is missing. */
  lemma TripleContactCells(header: seq<string>, row: seq<Option<Cell>>,
                           nameCol: string, emailCol: string, phoneCol: string)
    ensures var r := TripleContact(header, row, nameCol, emailCol, phoneCol);
      (nameCol !in header ==> r.name == Str(""))
      && (emailCol !in header ==> r.email == Str(""))
      && (phoneCol !in header ==> r.phone == "")
    ensures var r := TripleContact(header, row, nameCol, emailCol, phoneCol);
      forall k :: 0 <= k < |row| && k < |header| && header[k] == nameCol && nameCol !in header[..k] ==>
        r.name == OrEmpty(row[k])
    ensures var r := TripleContact(header, row, nameCol, emailCol, phoneCol);
      forall k :: 0 <= k < |row| && k < |header| && header[k] == emailCol && emailCol !in header[..k] ==>
        r.email == OrEmpty(row[k])
    ensures var r := TripleContact(header, row, nameCol, emailCol, phoneCol);
      forall k :: 0 <= k < |row| && k < |header| && header[k] == phoneCol && phoneCol !in header[..k] ==>
        r.phone == TextOrEmpty(row[k])
  {
  }

  /** One of Layout B's column triples renamed to (Name, Email, Phone Number):
      one contact per input row, in input order, empty cells as "" and the
      phone number as text. */
  function SelectTriple(header: seq<string>, rows: seq<seq<Option<Cell>>>,
                        nameCol: string, emailCol: string, phoneCol: string): (out: seq<Contact>)
    ensures |out| == |rows|
    ensures forall i :: 0 <= i < |rows| ==>
      out[i] == TripleContact(header, rows[i], nameCol, emailCol, phoneCol)
  {
    if rows == [] then []
    else
      [TripleContact(header, rows[0], nameCol, emailCol, phoneCol)]
      + SelectTriple(header, rows[1..], nameCol, emailCol, phoneCol)
  }

  /** The Buyer columns renamed to (Name, Email, Phone Number): the Buyer
      triple of every row, in input order. */
  function BuyerRows(t: Table): (r: seq<Contact>)
    ensures |r| == |t.rows|
    ensures forall i :: 0 <= i < |t.rows| ==>
      r[i] == TripleContact(t.header, t.rows[i], "Buyer Name", "Buyer Email", "Buyer Contact")
  {
    SelectTriple(t.header, t.rows, "Buyer Name", "Buyer Email", "Buyer Contact")
  }

  /** The FULL NAME columns renamed likewise: the FULL NAME triple of every
      row, in input order. */
  function FullNameRows(t: Table): (r: seq<Contact>)
    ensures |r| == |t.rows|
    ensures forall i :: 0 <= i < |t.rows| ==>
      r[i] == TripleContact(t.header, t.rows[i], "FULL NAME", "E-MAIL ADDRESS", "MOBILE NUMBER")
  {
    SelectTriple(t.header, t.rows, "FULL NAME", "E-MAIL ADDRESS", "MOBILE NUMBER")
  }

  /** Some name of `names` heads two columns of `header`. Column names
      pandas reads are unique (it renames a repeated one), so after stripping
      this happens only when two names differ in surrounding whitespace. */
  predicate Repeated(header: seq<string>, names: set<string>) {
    exists i, j :: 0 <= i < j < |header| && header[i] == header[j] && header[i] in names
  }

  /** What happens to a table once it is read and its column names are
      stripped: Layout A, else Layout B, else the file is skipped. When a
      column of the selected layout appears twice, `df[name]` selects both
      columns and the assignment that follows raises, so the file is skipped
      as a processing error. An accepted table's count is the number of
      contacts it gives. */
  function NormalizeTable(t: Table): (r: FileResult)
    ensures r.Accepted? ==> r.count == |r.rows|
    ensures r.Skipped? ==> r.reason == MissingColumns || r.reason == ProcessingError
    ensures r == Skipped(MissingColumns) <==> DetectLayout(Columns(t.header)) == Unrecognized
    ensures r == Skipped(ProcessingError) <==>
      (DetectLayout(Columns(t.header)) == LayoutA && Repeated(t.header, LayoutAColumns))
      || (DetectLayout(Columns(t.header)) == LayoutB && Repeated(t.header, LayoutBColumns))
  {
    match DetectLayout(Columns(t.header))
    case LayoutA =>
      if Repeated(t.header, LayoutAColumns) then Skipped(ProcessingError)
      else
        var rows := NormalizeA(t.header, t.rows);
        Accepted(rows, |rows|)
    case LayoutB =>
      if Repeated(t.header, LayoutBColumns) then Skipped(ProcessingError)
      else
        var buyer := BuyerRows(t);
        var fullName := FullNameRows(t);
        Accepted(buyer + fullName, |buyer| + |fullName|)
    case Unrecognized => Skipped(MissingColumns)
  }

  /** The conditions under which a file is read and its table normalized. */
  predicate Readable(f: SourceFile) {
    !StartsWith(f.name, TempPrefix) && IsExcelSuffix(Suffix(f.name)) && f.contents.Parsed?
  }

  /** The per-file normalizer. The checks run in the source's order: the
      temporary-file prefix, the suffix, reading, then the layout. An accepted
      file's count is the number of contacts it contributes. */
  function ProcessFile(f: SourceFile): (r: FileResult)
    ensures r.Accepted? ==> r.count == |r.rows|
  {
    if StartsWith(f.name, TempPrefix) then Skipped(TemporaryFile)
    else if !IsExcelSuffix(Suffix(f.name)) then Skipped(UnsupportedType)
    else match f.contents
      case ReadFailed => Skipped(ReadError)
      case Parsed(raw) => NormalizeTable(StripColumns(raw))
  }

  /** Each skip happens exactly under its own condition, and a readable
      file's result is that of its table with stripped column names. */
  lemma ProcessFileCases(f: SourceFile)
    ensures ProcessFile(f) == Skipped(TemporaryFile) <==> StartsWith(f.name, TempPrefix)
    ensures ProcessFile(f) == Skipped(UnsupportedType) <==>
      !StartsWith(f.name, TempPrefix) && !IsExcelSuffix(Suffix(f.name))
    ensures ProcessFile(f) == Skipped(ReadError) <==>
      !StartsWith(f.name, TempPrefix) && IsExcelSuffix(Suffix(f.name)) && f.contents.ReadFailed?
    ensures ProcessFile(f) == Skipped(MissingColumns) <==>
      Readable(f) && DetectLayout(Columns(StripColumns(f.contents.table).header)) == Unrecognized
    ensures ProcessFile(f) == Skipped(ProcessingError) <==>
      Readable(f) && var h := StripColumns(f.contents.table).header;
      (DetectLayout(Columns(h)) == LayoutA && Repeated(h, LayoutAColumns))
      || (DetectLayout(Columns(h)) == LayoutB && Repeated(h, LayoutBColumns))
    ensures Readable(f) ==> ProcessFile(f) == NormalizeTable(StripColumns(f.contents.table))
  {
  }

  /** A file is accepted exactly when it is readable and its stripped column
      names contain Layout A's columns, each once, or else contain Layout B's
      columns, each once. */
  lemma AcceptedIff(f: SourceFile)
    ensures ProcessFile(f).Accepted? <==>
      Readable(f) && var h := StripColumns(f.contents.table).header;
      var cols := Columns(h);
      (LayoutAColumns <= cols && !Repeated(h, LayoutAColumns))
      || (!(LayoutAColumns <= cols) && LayoutBColumns <= cols && !Repeated(h, LayoutBColumns))
  {
    if Readable(f) {
      var t := StripColumns(f.contents.table);
      assert ProcessFile(f) == NormalizeTable(t);
    }
  }

  /** A `~$` file is skipped whatever its suffix or contents. */
  lemma TemporaryFileIgnoresRest(name: string, c1: ReadOutcome, c2: ReadOutcome, suffixed: string)
    requires StartsWith(name, TempPrefix)
    ensures ProcessFile(SourceFile(name, c1)) == ProcessFile(SourceFile(name + suffixed, c2))
      == Skipped(TemporaryFile)
  {
    assert (name + suffixed)[..|TempPrefix|] == name[..|TempPrefix|];
  }

  /** Layout A applies whenever its columns are present, each once, whatever
      else is (in particular when Layout B's columns are present too): one
      contact per input row, the count equal to the number of input rows. */
  lemma LayoutAOutput(t: Table)
    requires LayoutAColumns <= Columns(t.header) && !Repeated(t.header, LayoutAColumns)
    ensures NormalizeTable(t).Accepted?
    ensures NormalizeTable(t).count == |NormalizeTable(t).rows| == |t.rows|
    ensures var out := NormalizeTable(t).rows;
      forall i :: 0 <= i < |t.rows| ==>
        out[i].name == Str(TextOrEmpty(CellAt(t.header, t.rows[i], "First Name")) + " "
                           + TextOrEmpty(CellAt(t.header, t.rows[i], "Last Name")))
        && out[i].email == Str(TextOrEmpty(CellAt(t.header, t.rows[i], "Email Address")))
        && out[i].phone == TextOrEmpty(CellAt(t.header, t.rows[i], "Cell Phone"))
  {
  }

  /** Layout B, its columns each present once, with n input rows gives 2n
      contacts and the count 2n: the Buyer triples of all rows in input order,
      then the FULL NAME triples. */
  lemma LayoutBOutput(t: Table)
    requires DetectLayout(Columns(t.header)) == LayoutB && !Repeated(t.header, LayoutBColumns)
    ensures NormalizeTable(t).Accepted?
    ensures NormalizeTable(t).count == |NormalizeTable(t).rows| == 2 * |t.rows|
    ensures var out := NormalizeTable(t).rows;
      forall i :: 0 <= i < |t.rows| ==>
        out[i] == TripleContact(t.header, t.rows[i], "Buyer Name", "Buyer Email", "Buyer Contact")
    ensures var out := NormalizeTable(t).rows;
      forall i :: 0 <= i < |t.rows| ==>
        out[|t.rows| + i] == TripleContact(t.header, t.rows[i], "FULL NAME", "E-MAIL ADDRESS", "MOBILE NUMBER")
  {
    var buyer, fullName := BuyerRows(t), FullNameRows(t);
    var out := buyer + fullName;
    LayoutBResult(t);
    forall i | 0 <= i < |t.rows|
      ensures out[i] == TripleContact(t.header, t.rows[i], "Buyer Name", "Buyer Email", "Buyer Contact")
    {
      assert out[i] == buyer[i];
    }
    forall i | 0 <= i < |t.rows|
      ensures out[|t.rows| + i] == TripleContact(t.header, t.rows[i], "FULL NAME", "E-MAIL ADDRESS", "MOBILE NUMBER")
    {
      ConcatAt(buyer, fullName, i);
    }
  }

  lemma LayoutBResult(t: Table)
    requires DetectLayout(Columns(t.header)) == LayoutB && !Repeated(t.header, LayoutBColumns)
    ensures NormalizeTable(t) == Accepted(BuyerRows(t) + FullNameRows(t), 2 * |t.rows|)
  {
  }

  lemma ConcatAt<T>(a: seq<T>, b: seq<T>, i: nat)
    requires i < |b|
    ensures (a + b)[|a| + i] == b[i]
  {
  }

  /** Whitespace around one column name of the file does not change the
      result: names are matched after stripping. */
  lemma HeaderPaddingIgnored(f: SourceFile, k: nat, pre: string, post: string)
    requires f.contents.Parsed? && k < |f.contents.table.header|
    requires AllSpace(pre) && AllSpace(post)
    ensures var t := f.contents.table;
      var padded := Table(t.header[k := pre + t.header[k] + post], t.rows);
      ProcessFile(SourceFile(f.name, Parsed(padded))) == ProcessFile(f)
  {
    var t := f.contents.table;
    var padded := Table(t.header[k := pre + t.header[k] + post], t.rows);
    var g := SourceFile(f.name, Parsed(padded));
    StripColumnsIgnoresPadding(t, k, pre, post);
    if Readable(f) {
      assert Readable(g);
      assert ProcessFile(g) == NormalizeTable(StripColumns(padded));
      assert ProcessFile(f) == NormalizeTable(StripColumns(t));
    }
  }

  lemma StripColumnsIgnoresPadding(t: Table, k: nat, pre: string, post: string)
    requires k < |t.header|
    requires AllSpace(pre) && AllSpace(post)
    ensures StripColumns(Table(t.header[k := pre + t.header[k] + post], t.rows)) == StripColumns(t)
  {
    var padded := Table(t.header[k := pre + t.header[k] + post], t.rows);
    StripIgnoresPadding(pre, t.header[k], post);
    var a, b := StripColumns(padded), StripColumns(t);
    assert a.header == b.header by {
      forall j | 0 <= j < |t.header| ensures a.header[j] == b.header[j] {
        if j != k { assert padded.header[j] == t.header[j]; }
      }
    }
  }

  /** The header cell " Email Address " counts as the column "Email Address". */
  lemma PaddedEmailHeader()
    ensures Strip(" Email Address ") == "Email Address"
  {
    assert " Email Address " == " " + "Email Address" + " ";
    StripOfPadded(" ", "Email Address", " ");
  }
}
