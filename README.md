# ExcelCombine contact normalizer — Dafny model

`combine_excel.py` merges contact lists exported from spreadsheets into one
table of `Name`, `Email` and `Phone Number` rows. This project models its core
in Dafny.

- `process_file` decides, file by file, whether to read an input file. It
  then recognises one of two column layouts and normalizes every row.
- `combine_excel_files` runs `process_file` over the files in order. It keeps
  the accepted results, adds up the row counts, and concatenates the kept rows
  into the output table, or reports that there was nothing to process.

Modules:

- `Text` (`text.dfy`) models the Python string operations the program uses:
  `str.strip()` with Python's whitespace set, `str.startswith`, and the
  `pathlib` suffix of a file name.
- `Sheet` (`sheet.dfy`) is a table as pandas hands it over: a header of column
  names and rows of optional cells. It also has `fillna('')` and `astype(str)`
  on one cell, and lookup of a column by name.
- `Normalizer` (`normalizer.dfy`) is `process_file`. `ProcessFile` is a pure
  function from a file to `Accepted(rows, count)` or `Skipped(reason)`, which
  stands for `(processed_df, total_rows)` and `(None, 0)`. The lemmas beside it
  give:
  - the exact condition for each skip;
  - the output of each layout;
  - the precedence of Layout A over Layout B;
  - the effect of stripping column names.
- `Combiner` (`combiner.dfy`) is `combine_excel_files`. It is a method with
  the source's loop, proved against the functions `Kept` (the list of kept
  results), `TotalCount` (the running total) and `Combined` (their
  concatenation).
- `Scenarios` (`scenarios.dfy`) holds worked inputs:
  - a Layout A file and a Layout B file combined into four rows;
  - file names that the temporary-file and suffix checks turn away;
  - a header-only file.

Two points of the code's behaviour are easy to misread, and the model keeps
both as the code has them:

- Only column names are stripped (line 22). Cell values are used as they
  are, so a first name with surrounding spaces keeps them in `Name`.
- The output table is written as soon as one file is accepted (lines
  76-81), even when no accepted file has any rows. See
  `Scenarios.HeaderOnlyFileAccepted`.

## Model

| member | source | states |
|---|---|---|
| Text.Strip | combine_excel.py:22 | the stripped column name has no leading or trailing whitespace (Python's `isspace` set) and is no longer than the original |
| Text.StripOfPadded | combine_excel.py:22 | stripping whitespace around a name that neither starts nor ends with whitespace gives back exactly that name, so `Strip` is fully determined |
| Text.StripParts | combine_excel.py:22 | every string is its stripped form with whitespace on both sides: strip removes only whitespace, and only at the ends |
| Text.StripIgnoresPadding | combine_excel.py:22 | adding whitespace around a name does not change its stripped form |
| Text.StartsWith | combine_excel.py:8 | `startswith`: the name is at least as long as the prefix and agrees with it character by character |
| Text.LastIndexOf | combine_excel.py:13-15 | the index of the last occurrence of a character, or -1; no later position holds it |
| Text.Suffix | combine_excel.py:13-15 | a file's suffix is empty or a `.`-led tail of the name with no other dot, shorter than the name |
| Text.SuffixOfExtension | combine_excel.py:13-15 | a name `stem.word` with a non-empty stem has the suffix `.word` |
| Text.DotNameHasNoSuffix | combine_excel.py:13-17 | a name that is only `.word` (such as `.xlsx`) has no suffix |
| Sheet.Digits | combine_excel.py:34 | the decimal text of a natural number: a non-empty digit string whose value is the number, with a leading `0` only for zero, and then as the whole text "0" |
| Sheet.DigitsCanonical | combine_excel.py:34 | every digit string without a leading zero (or "0" itself) is the `Digits` of its value, so the decimal text of a number is unique |
| Sheet.ToText | combine_excel.py:29-34 | `astype(str)` keeps text unchanged; it writes a non-negative integer as digits whose value is the integer, without a leading zero, and 0 as the single digit "0", and a negative one as `-` followed by such digits for its magnitude; this is `Digits` of the integer (with a `-` before it when negative), which DigitsCanonical shows is the only such text |
| Sheet.OrEmpty | combine_excel.py:43 | `fillna('')` keeps a present cell and turns an empty cell into `""` |
| Sheet.TextOrEmpty | combine_excel.py:29-34 | `fillna('').astype(str)` is `""` for an empty cell and the cell's text otherwise |
| Sheet.IndexOf | combine_excel.py:29-34 | column lookup by name: the first column with that name, or -1 when no column has it |
| Sheet.CellAt | combine_excel.py:29-34 | `df[name]` at one row: the cell under the first column called `name`, and empty when no column has that name or the row ends before that column |
| Sheet.Columns | combine_excel.py:27 | the column set contains exactly the names in the header |
| Normalizer.StripColumns | combine_excel.py:22 | the same number of columns, each name stripped, and rows unchanged |
| Normalizer.IsExcelSuffix | combine_excel.py:13-17 | the suffixes read are exactly ".xls", optionally followed by "x", compared case-sensitively |
| Normalizer.DetectLayout | combine_excel.py:27-62 | Layout A exactly when its four columns are present; Layout B exactly when A's are not all present and B's six are |
| Normalizer.NormalizeA | combine_excel.py:29-37 | one contact per input row: Name is First Name text, a space, then Last Name text; Email and Phone are the text of their cells |
| Normalizer.SelectTriple | combine_excel.py:43-50 | one contact per input row, taking the name, email and phone cells of the given three columns |
| Normalizer.TripleContactCells | combine_excel.py:43-50 | a Layout B contact (`TripleContact`) is made of the cells under the first column of each name of the triple, name and email as they are, the phone as text, with missing columns giving "" |
| Normalizer.BuyerRows | combine_excel.py:43-45 | the Buyer triple of every row, in input order |
| Normalizer.FullNameRows | combine_excel.py:48-50 | the FULL NAME triple of every row, in input order |
| Normalizer.NormalizeTable | combine_excel.py:26-64 | an accepted table's count equals its number of contacts; the table is skipped for missing columns exactly when no layout matches, and as a processing error exactly when a column of the selected layout appears twice |
| Normalizer.ProcessFile | combine_excel.py:5-68 | an accepted file's reported count equals the number of rows it returns |
| Normalizer.ProcessFileCases | combine_excel.py:5-68 | each skip reason holds exactly under its own condition, checked in order (`~$` prefix, suffix, read failure, missing columns, repeated layout column); a readable file gives the result of its table with stripped column names |
| Normalizer.AcceptedIff | combine_excel.py:5-68 | a file is accepted exactly when it is readable and its stripped column names contain Layout A's columns, each once, or else Layout B's columns, each once |
| Normalizer.TemporaryFileIgnoresRest | combine_excel.py:8-10 | a `~$` file is skipped as temporary, whatever follows the prefix and whatever the file holds |
| Normalizer.LayoutAOutput | combine_excel.py:27-37 | when Layout A's columns are each present once (even if B's are present too), the file gives one contact per row, with the count equal to the row count and each field as the source builds it |
| Normalizer.LayoutBOutput | combine_excel.py:41-56 | Layout B, its columns each present once, with n rows gives 2n contacts and count 2n: the Buyer triple of each row in order, then the FULL NAME triple of each row |
| Normalizer.StripColumnsIgnoresPadding | combine_excel.py:22 | whitespace around one column name leaves the stripped header unchanged |
| Normalizer.HeaderPaddingIgnored | combine_excel.py:22-41 | whitespace around one column name of the table as read does not change the file's result |
| Normalizer.PaddedEmailHeader | combine_excel.py:22-27 | the header " Email Address " matches the column "Email Address" |
| Combiner.Kept | combine_excel.py:71-78 | there are never more kept results than input files |
| Combiner.TotalCount | combine_excel.py:72-78 | the running total, the sum of the accepted counts, is 0 when every file is skipped |
| Combiner.Concat | combine_excel.py:82 | `pd.concat` holds as many rows as all the blocks together (`RowCount`), and a single block comes out unchanged |
| Combiner.Combined | combine_excel.py:81-82 | the concatenated output holds as many rows as the reported total, and none when every file is skipped |
| Combiner.RowCountAppend | combine_excel.py:82 | adding a last block adds its length to the row count |
| Combiner.CombineFiles | combine_excel.py:70-102 | the loop's total is the sum of the accepted counts; there is no output exactly when every file is skipped; otherwise the output is the accepted files' rows in input order, and its length is the total |
| Combiner.KeptEmptyIffAllSkipped | combine_excel.py:76-102 | the list of kept results is empty exactly when every file was skipped |
| Combiner.ConcatAppend | combine_excel.py:82 | concatenation distributes over appending lists of results |
| Combiner.TotalIsKeptRowCount | combine_excel.py:78-82 | the running total equals the number of rows in the kept blocks |
| Combiner.KeptAppend | combine_excel.py:74-78 | processing `a` then `b` keeps `a`'s results, then `b`'s, and adds the two totals |
| Combiner.CombinedAppend | combine_excel.py:74-82 | the combined rows of `a + b` are those of `a` followed by those of `b` |
| Combiner.SingleFile | combine_excel.py:74-78 | a single file contributes its rows and count if accepted, and nothing otherwise |
| Combiner.SkippedFileContributesNothing | combine_excel.py:76-78 | removing a skipped file from the input changes neither the combined rows nor the total |
| Scenarios.StripTightHeader | combine_excel.py:22 | a header whose names have no surrounding whitespace is left unchanged by stripping |
| Scenarios.ExcelName | combine_excel.py:8-16 | a name `stem.xls` or `stem.xlsx` not starting with `~` is read: a parsed file goes to layout detection, and a failed read is a read error |
| Scenarios.TableA | combine_excel.py:27-37 | two Layout A rows give "Jon Doe" and "Ann Lee" with their emails, text phone numbers with leading zeros, and count 2 |
| Scenarios.TableB | combine_excel.py:41-56 | one Layout B row gives the Buyer contact, then the FULL NAME contact, and count 2 |
| Scenarios.FileA | combine_excel.py:5-37 | the file `a.xlsx` with the Layout A table is accepted with those two contacts |
| Scenarios.FileB | combine_excel.py:5-56 | the file `b.xls` with the Layout B table is accepted with those two contacts |
| Scenarios.TwoAccepted | combine_excel.py:74-82 | two accepted files combine to the first one's rows, then the second one's, with the counts added |
| Scenarios.TwoFilesCombined | combine_excel.py:70-100 | the two example files combine into four rows in input order, with total 4 |
| Scenarios.UpperCaseSuffixSkipped | combine_excel.py:13-19 | `a.XLSX` is skipped as unsupported: the suffix test is case-sensitive |
| Scenarios.OtherExtensionSkipped | combine_excel.py:13-19 | any name `stem.word` not starting with `~` whose word is neither `xls` nor `xlsx` (such as `a.csv`) is skipped as unsupported, whatever the file holds |
| Scenarios.BareExtensionSkipped | combine_excel.py:13-19 | a file named just `.xlsx` has no suffix and is skipped as unsupported |
| Scenarios.LockFileSkipped | combine_excel.py:8-10 | the Excel lock file `~$a.xlsx` is skipped as temporary, although its suffix is `.xlsx` |
| Scenarios.HeaderOnlyFileAccepted | combine_excel.py:76-81 | a Layout A file with no data rows is accepted with zero rows, so the batch is not all skipped and an empty table is written |
| Scenarios.PaddedDuplicateStripped | combine_excel.py:22 | Layout A's header plus " Email Address " strips to Layout A's header plus a second "Email Address" |
| Scenarios.PaddedDuplicateSkipped | combine_excel.py:22-34 | such a file is skipped as a processing error: `df['Email Address']` selects two columns and the assignment to `Email` raises, which lines 66-68 catch |

## Left out

- Reading a workbook (pandas with xlrd or openpyxl) is not modelled. A file's `contents` field stands for its outcome: the parsed table, or an exception.
- At lines 66-68 the model has two failures: a read failure, and a column of the selected layout that appears twice after stripping. Other exceptions raised while a table is normalized (from unusual cell types, say) are not modelled.
- Writing the output workbook and setting the Phone Number column's text format (lines 85-97) are left out, because they are file output. `CombineFiles` returns the table that would be written.
- The module-level script (lines 104-112) is left out. It globs the input folder and names the output file, which needs directory listing and a fixed path. The model takes the file list as a parameter.
- The `print` logging is left out. Each log line corresponds to a `SkipReason` or to a returned count.
- Sheet.ToText: renders only text and integer cells. How `astype(str)` renders floats (such as `123.0` for a phone column with empty cells), dates and booleans is not modelled.
- Column names are modelled as text. Non-string headers (numbers, unnamed columns) are left out.
- A table's column names are taken as pandas returns them, which is unique. pandas renames a repeated name on reading, so only names that differ in surrounding whitespace can collide after stripping. Such a collision among the selected layout's columns is modelled as a processing error. Which statement raises is not modelled, only that one does. For a repeated Email Address or Cell Phone, it is the one-column assignment at line 33 or 34. For a repeated First Name or Last Name, it is the join at line 32 and the assignment to `Name`. For Layout B, it is the renaming at line 44 or 49. A collision between names that the selected layout neither reads nor writes changes nothing, as in the source.
- Normalizer.NormalizeA: under Layout A, two columns that both strip to `Name`, `Email` or `Phone Number` widen the source's output. Lines 32-34 write every column of that name, and line 36 then selects all of them, so the written table gets more than three columns. The model keeps three fields per contact and does not capture this.
- A row is a list of cells by column position. A row shorter than the header reads as empty in its missing columns.
