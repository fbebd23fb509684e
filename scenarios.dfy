/** Worked inputs: two files in the two layouts, and file names that the
    temporary-file and suffix checks turn away. */
module Scenarios {
  import opened Text
  import opened Sheet
  import opened Normalizer
  import opened Combiner

  /** A header whose names are already stripped is left as it is. */
  lemma {:induction false} StripTightHeader(t: Table)
    requires forall k :: 0 <= k < |t.header| ==> Tight(t.header[k])
    ensures StripColumns(t) == t
  {
    forall k | 0 <= k < |t.header| ensures Strip(t.header[k]) == t.header[k] {
      StripOfPadded("", t.header[k], "");
      assert "" + t.header[k] + "" == t.header[k];
    }
    assert StripColumns(t).header == t.header;
  }

  /** A name `stem.word` that does not start with "~$" is read when `.word`
      is one of the two Excel suffixes. */
  lemma ExcelName(name: string, stem: string, word: string, c: ReadOutcome)
    requires name == stem + "." + word
    requires stem != [] && stem[0] != '~'
    requires word == "xls" || word == "xlsx"
    ensures ProcessFile(SourceFile(name, c))
      == if c.Parsed? then NormalizeTable(StripColumns(c.table)) else Skipped(ReadError)
  {
    SuffixOfExtension(stem, word);
    assert name[0] == stem[0];
    assert !StartsWith(name, TempPrefix);
    assert IsExcelSuffix(Suffix(name));
  }

  const ContactsA := Table(
    ["First Name", "Last Name", "Email Address", "Cell Phone"],
    [[Some(Str("Jon")), Some(Str("Doe")), Some(Str("jon@x.com")), Some(Str("0123"))],
     [Some(Str("Ann")), Some(Str("Lee")), Some(Str("ann@x.com")), Some(Str("0456"))]])

  const ContactsB := Table(
    ["Buyer Name", "Buyer Email", "Buyer Contact", "FULL NAME", "E-MAIL ADDRESS", "MOBILE NUMBER"],
    [[Some(Str("B1")), Some(Str("b1@x.com")), Some(Str("0789")),
      Some(Str("F1")), Some(Str("f1@x.com")), Some(Str("0999"))]])

  lemma ColumnsOfA()
    ensures LayoutAColumns <= Columns(ContactsA.header)
  {
  }

  lemma UniqueColumnsA()
    ensures !Repeated(ContactsA.header, LayoutAColumns)
  {
    var h := ContactsA.header;
    assert h[0][0] != h[3][0];
    forall i, j | 0 <= i < j < |h| ensures h[i] != h[j] {
      assert |h[i]| != |h[j]| || h[i][0] != h[j][0];
    }
  }

  lemma IndicesOfA()
    ensures var h := ContactsA.header;
      IndexOf(h, "First Name") == 0 && IndexOf(h, "Last Name") == 1
      && IndexOf(h, "Email Address") == 2 && IndexOf(h, "Cell Phone") == 3
  {
    var h := ContactsA.header;
    assert IndexOf(h, "First Name") == 0;
    assert IndexOf(h, "Last Name") == 1;
    assert IndexOf(h, "Email Address") == 2;
    assert IndexOf(h, "Cell Phone") == 3;
  }

  lemma TableA()
    ensures NormalizeTable(ContactsA) == Accepted(
      [Contact(Str("Jon Doe"), Str("jon@x.com"), "0123"),
       Contact(Str("Ann Lee"), Str("ann@x.com"), "0456")], 2)
  {
    RowsOfA();
    TwoRows(NormalizeTable(ContactsA), Contact(Str("Jon Doe"), Str("jon@x.com"), "0123"),
      Contact(Str("Ann Lee"), Str("ann@x.com"), "0456"));
  }

  lemma RowsOfA()
    ensures var r := NormalizeTable(ContactsA);
      r.Accepted? && r.count == |r.rows| == 2
      && r.rows[0] == Contact(Str("Jon Doe"), Str("jon@x.com"), "0123")
      && r.rows[1] == Contact(Str("Ann Lee"), Str("ann@x.com"), "0456")
  {
    ColumnsOfA();
    UniqueColumnsA();
    LayoutAOutput(ContactsA);
    CellsOfA(ContactsA.rows[0]);
    CellsOfA(ContactsA.rows[1]);
    JoinedNames();
  }

  lemma JoinedNames()
    ensures "Jon" + " " + "Doe" == "Jon Doe" && "Ann" + " " + "Lee" == "Ann Lee"
  {
    assert "Jon" + " " + "Doe" == "Jon Doe";
  }

  lemma CellsOfA(row: seq<Option<Cell>>)
    requires |row| == 4
    ensures var h := ContactsA.header;
      CellAt(h, row, "First Name") == row[0] && CellAt(h, row, "Last Name") == row[1]
      && CellAt(h, row, "Email Address") == row[2] && CellAt(h, row, "Cell Phone") == row[3]
  {
    IndicesOfA();
  }

  lemma UniqueColumnsB()
    ensures !Repeated(ContactsB.header, LayoutBColumns)
  {
    var h := ContactsB.header;
    forall i, j | 0 <= i < j < |h| ensures h[i] != h[j] {
      assert |h[i]| != |h[j]| || h[i][0] != h[j][0];
    }
  }

  lemma LayoutOfB()
    ensures DetectLayout(Columns(ContactsB.header)) == LayoutB
  {
    assert "Cell Phone" !in Columns(ContactsB.header);
  }

  lemma IndicesOfB()
    ensures var h := ContactsB.header;
      IndexOf(h, "Buyer Name") == 0 && IndexOf(h, "Buyer Email") == 1
      && IndexOf(h, "Buyer Contact") == 2 && IndexOf(h, "FULL NAME") == 3
      && IndexOf(h, "E-MAIL ADDRESS") == 4 && IndexOf(h, "MOBILE NUMBER") == 5
  {
    var h := ContactsB.header;
    assert IndexOf(h, "Buyer Name") == 0;
    assert IndexOf(h, "Buyer Email") == 1;
    assert IndexOf(h, "Buyer Contact") == 2;
    assert IndexOf(h, "FULL NAME") == 3;
    assert IndexOf(h, "E-MAIL ADDRESS") == 4;
    assert IndexOf(h, "MOBILE NUMBER") == 5;
  }

  lemma RowsOfB()
    ensures var r := NormalizeTable(ContactsB);
      r.Accepted? && r.count == |r.rows| == 2
      && r.rows[0] == TripleContact(ContactsB.header, ContactsB.rows[0], "Buyer Name", "Buyer Email", "Buyer Contact")
      && r.rows[1] == TripleContact(ContactsB.header, ContactsB.rows[0], "FULL NAME", "E-MAIL ADDRESS", "MOBILE NUMBER")
  {
    LayoutOfB();
    UniqueColumnsB();
    LayoutBOutput(ContactsB);
  }

  lemma BuyerOfB()
    ensures TripleContact(ContactsB.header, ContactsB.rows[0], "Buyer Name", "Buyer Email", "Buyer Contact")
      == Contact(Str("B1"), Str("b1@x.com"), "0789")
  {
    IndicesOfB();
  }

  lemma FullNameOfB()
    ensures TripleContact(ContactsB.header, ContactsB.rows[0], "FULL NAME", "E-MAIL ADDRESS", "MOBILE NUMBER")
      == Contact(Str("F1"), Str("f1@x.com"), "0999")
  {
    IndicesOfB();
  }

  lemma TableB()
    ensures NormalizeTable(ContactsB) == Accepted(
      [Contact(Str("B1"), Str("b1@x.com"), "0789"),
       Contact(Str("F1"), Str("f1@x.com"), "0999")], 2)
  {
    RowsOfB();
    BuyerOfB();
    FullNameOfB();
    TwoRows(NormalizeTable(ContactsB), Contact(Str("B1"), Str("b1@x.com"), "0789"),
      Contact(Str("F1"), Str("f1@x.com"), "0999"));
  }

  lemma TwoRows(r: FileResult, x: Contact, y: Contact)
    requires r.Accepted? && r.count == |r.rows| == 2 && r.rows[0] == x && r.rows[1] == y
    ensures r == Accepted([x, y], 2)
  {
    assert r.rows == [x, y];
  }

  lemma TightHeaderA()
    ensures forall k :: 0 <= k < |ContactsA.header| ==> Tight(ContactsA.header[k])
  {
    var h := ContactsA.header;
    assert Tight(h[0]);
    assert Tight(h[1]);
    assert Tight(h[2]);
    assert Tight(h[3]);
  }

  lemma TightHeaderB()
    ensures forall k :: 0 <= k < |ContactsB.header| ==> Tight(ContactsB.header[k])
  {
    var h := ContactsB.header;
    assert Tight(h[0]);
    assert Tight(h[1]);
    assert Tight(h[2]);
    assert Tight(h[3]);
    assert Tight(h[4]);
    assert Tight(h[5]);
  }

  lemma FileA()
    ensures ProcessFile(SourceFile("a.xlsx", Parsed(ContactsA))) == Accepted(
      [Contact(Str("Jon Doe"), Str("jon@x.com"), "0123"),
       Contact(Str("Ann Lee"), Str("ann@x.com"), "0456")], 2)
  {
    ExcelName("a.xlsx", "a", "xlsx", Parsed(ContactsA));
    TightHeaderA();
    StripTightHeader(ContactsA);
    TableA();
  }

  lemma FileB()
    ensures ProcessFile(SourceFile("b.xls", Parsed(ContactsB))) == Accepted(
      [Contact(Str("B1"), Str("b1@x.com"), "0789"),
       Contact(Str("F1"), Str("f1@x.com"), "0999")], 2)
  {
    ExcelName("b.xls", "b", "xls", Parsed(ContactsB));
    TightHeaderB();
    StripTightHeader(ContactsB);
    TableB();
  }

  /** Two accepted files: the rows of the first, then those of the second,
      and the sum of their counts. */
  lemma TwoAccepted(f1: SourceFile, f2: SourceFile)
    requires ProcessFile(f1).Accepted? && ProcessFile(f2).Accepted?
    ensures Combined([f1, f2]) == ProcessFile(f1).rows + ProcessFile(f2).rows
    ensures TotalCount([f1, f2]) == ProcessFile(f1).count + ProcessFile(f2).count
  {
    SingleFile(f1);
    SingleFile(f2);
    KeptAppend([f1], [f2]);
    CombinedAppend([f1], [f2]);
    assert [f1] + [f2] == [f1, f2];
  }

  /** The two files together give four rows, file A's first, then the Buyer
      row and the FULL NAME row of file B; leading zeros of text phone
      numbers survive; the reported total is 4. */
  lemma TwoFilesCombined()
    ensures var files := [SourceFile("a.xlsx", Parsed(ContactsA)), SourceFile("b.xls", Parsed(ContactsB))];
      Combined(files) == [Contact(Str("Jon Doe"), Str("jon@x.com"), "0123"),
                          Contact(Str("Ann Lee"), Str("ann@x.com"), "0456"),
                          Contact(Str("B1"), Str("b1@x.com"), "0789"),
                          Contact(Str("F1"), Str("f1@x.com"), "0999")]
      && TotalCount(files) == 4
  {
    var f1, f2 := SourceFile("a.xlsx", Parsed(ContactsA)), SourceFile("b.xls", Parsed(ContactsB));
    FileA();
    FileB();
    TwoAccepted(f1, f2);
  }

  /** The suffix test is case-sensitive: an ".XLSX" file is not read. */
  lemma UpperCaseSuffixSkipped(c: ReadOutcome)
    ensures ProcessFile(SourceFile("a.XLSX", c)) == Skipped(UnsupportedType)
  {
    OtherExtensionSkipped("a", "XLSX", c);
    assert "a" + "." + "XLSX" == "a.XLSX";
  }

  /** Any other extension is not read: a name `stem.word`, not starting with
      "~", whose word is neither "xls" nor "xlsx" (".csv", ".xlsm", ".XLS", ...)
      is skipped as unsupported, whatever the file holds. */
  lemma OtherExtensionSkipped(stem: string, word: string, c: ReadOutcome)
    requires stem != [] && stem[0] != '~' && word != []
    requires forall k :: 0 <= k < |word| ==> word[k] != '.'
    requires word != "xls" && word != "xlsx"
    ensures ProcessFile(SourceFile(stem + "." + word, c)) == Skipped(UnsupportedType)
  {
    var name := stem + "." + word;
    SuffixOfExtension(stem, word);
    assert name[0] == stem[0];
    assert !StartsWith(name, TempPrefix);
    assert ("." + word)[1..] == word;
    assert !IsExcelSuffix("." + word);
  }

  /** A file called just ".xlsx" has no suffix and is not read. */
  lemma BareExtensionSkipped(c: ReadOutcome)
    ensures ProcessFile(SourceFile(".xlsx", c)) == Skipped(UnsupportedType)
  {
    DotNameHasNoSuffix("xlsx");
    assert "." + "xlsx" == ".xlsx";
    assert ".xlsx"[..2][0] != TempPrefix[0];
  }

  /** An Excel lock file is skipped even though its suffix is ".xlsx". */
  lemma LockFileSkipped(c: ReadOutcome)
    ensures ProcessFile(SourceFile("~$a.xlsx", c)) == Skipped(TemporaryFile)
  {
    assert "~$a.xlsx"[..2] == "~$";
  }

  /** A Layout A file with a header and no data rows is accepted with zero
      rows, so the batch is not "all skipped" and an (empty) output table is
      written. */
  lemma HeaderOnlyFileAccepted()
    ensures var f := SourceFile("e.xlsx", Parsed(Table(ContactsA.header, [])));
      ProcessFile(f) == Accepted([], 0)
      && !AllSkipped([f]) && Combined([f]) == [] && TotalCount([f]) == 0
  {
    var t := Table(ContactsA.header, []);
    var f := SourceFile("e.xlsx", Parsed(t));
    ExcelName("e.xlsx", "e", "xlsx", Parsed(t));
    TightHeaderA();
    StripTightHeader(t);
    ColumnsOfA();
    UniqueColumnsA();
    LayoutAOutput(t);
    SingleFile(f);
    assert ProcessFile([f][0]).Accepted?;
  }

  /** Layout A's header with a second, padded "Email Address" column. */
  const PaddedDuplicate := Table(ContactsA.header + [" Email Address "], [])

  lemma PaddedDuplicateStripped()
    ensures StripColumns(PaddedDuplicate).header == ContactsA.header + ["Email Address"]
  {
    var t := Table(ContactsA.header, []);
    TightHeaderA();
    StripTightHeader(t);
    PaddedEmailHeader();
    StripColumnsAppend(t, " Email Address ");
    assert PaddedDuplicate == Table(t.header + [" Email Address "], t.rows);
    assert StripColumns(t).header == ContactsA.header;
    assert StripColumns(PaddedDuplicate).header == StripColumns(t).header + [Strip(" Email Address ")];
  }

  /** Stripping a header with one more column strips that column too. */
  lemma StripColumnsAppend(t: Table, name: string)
    ensures StripColumns(Table(t.header + [name], t.rows)).header
      == StripColumns(t).header + [Strip(name)]
  {
    var h := StripColumns(Table(t.header + [name], t.rows)).header;
    var want := StripColumns(t).header + [Strip(name)];
    forall k | 0 <= k < |h| ensures h[k] == want[k] {
      if k < |t.header| {
        assert (t.header + [name])[k] == t.header[k];
      }
    }
  }

  /** Two columns that differ only in surrounding whitespace both become
      "Email Address": `df['Email Address']` then selects two columns, the
      assignment to `df['Email']` raises and the file is skipped. */
  lemma PaddedDuplicateSkipped()
    ensures ProcessFile(SourceFile("d.xlsx", Parsed(PaddedDuplicate))) == Skipped(ProcessingError)
  {
    ExcelName("d.xlsx", "d", "xlsx", Parsed(PaddedDuplicate));
    PaddedDuplicateStripped();
    var h := StripColumns(PaddedDuplicate).header;
    ColumnsOfA();
    assert Columns(ContactsA.header) <= Columns(h);
    assert h[2] == h[4] && h[2] in LayoutAColumns;
  }
}
