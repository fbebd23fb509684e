/** `combine_excel_files`: runs the normalizer over the input files in order,
    keeps the results of the accepted files and adds up their row counts. */
module Combiner {
  import opened Sheet
  import opened Normalizer

  /** The row blocks of the accepted files, in input order (the list the loop
      builds up). Skipped files leave no entry. */
  function Kept(files: seq<SourceFile>): (frames: seq<seq<Contact>>)
    ensures |frames| <= |files|
  {
    if files == [] then []
    else
      var last := ProcessFile(files[|files| - 1]);
      Kept(files[..|files| - 1]) + (if last.Accepted? then [last.rows] else [])
  }

  /** The running row total after all of `files`: the sum of the accepted
      files' counts, which is 0 when every file is skipped. */
  function TotalCount(files: seq<SourceFile>): (n: nat)
    ensures AllSkipped(files) ==> n == 0
  {
    if files == [] then 0
    else
      AllSkippedPrefix(files);
      TotalCount(files[..|files| - 1]) + ProcessFile(files[|files| - 1]).Count()
  }

  /** The number of rows in a list of row blocks. */
  function RowCount(frames: seq<seq<Contact>>): nat {
    if frames == [] then 0 else |frames[0]| + RowCount(frames[1..])
  }

  /** `pd.concat` of a list of row blocks: the blocks one after the other.
      It holds all their rows, and one block on its own comes out unchanged. */
  function Concat(frames: seq<seq<Contact>>): (rows: seq<Contact>)
    ensures |rows| == RowCount(frames)
    ensures |frames| == 1 ==> rows == frames[0]
  {
    if frames == [] then []
    else
      var init := frames[..|frames| - 1];
      RowCountAppend(init, frames[|frames| - 1]);
      assert frames == init + [frames[|frames| - 1]];
      Concat(init) + frames[|frames| - 1]
  }

  /** Counting rows block by block from the front agrees with adding a last block. */
  lemma {:induction false} RowCountAppend(frames: seq<seq<Contact>>, last: seq<Contact>)
    ensures RowCount(frames + [last]) == RowCount(frames) + |last|
  {
    if frames != [] {
      assert (frames + [last])[1..] == frames[1..] + [last];
      RowCountAppend(frames[1..], last);
    }
  }

  /** All rows of all accepted files, file after file: as many as the
      reported total, and none when every file is skipped. */
  function Combined(files: seq<SourceFile>): (rows: seq<Contact>)
    ensures |rows| == TotalCount(files)
    ensures AllSkipped(files) ==> rows == []
  {
    TotalIsKeptRowCount(files);
    KeptEmptyIffAllSkipped(files);
    Concat(Kept(files))
  }

  /** The batch combiner. `output` is the table that would be written, or
      `None` when no file was accepted ("No valid files to process.");
      `total` is the reported number of rows copied. */
  method CombineFiles(files: seq<SourceFile>) returns (output: Option<seq<Contact>>, total: nat)
    ensures total == TotalCount(files)
    ensures output.None? <==> AllSkipped(files)
    ensures output.Some? ==> output.value == Combined(files) && |output.value| == total
    ensures output.None? ==> total == 0
  {
    var combined: seq<seq<Contact>> := [];
    total := 0;
    for i := 0 to |files|
      invariant combined == Kept(files[..i])
      invariant total == TotalCount(files[..i])
    {
      assert files[..i + 1][..i] == files[..i];
      var r := ProcessFile(files[i]);
      if r.Accepted? {
        combined := combined + [r.rows];
        total := total + r.count;
      }
    }
    assert files[..|files|] == files;
    KeptEmptyIffAllSkipped(files);
    if combined != [] {
      output := Some(Concat(combined));
    } else {
      output := None;
    }
  }

  /** Every file is skipped. */
  predicate AllSkipped(files: seq<SourceFile>) {
    forall i :: 0 <= i < |files| ==> ProcessFile(files[i]).Skipped?
  }

  lemma AllSkippedPrefix(files: seq<SourceFile>)
    requires files != []
    ensures AllSkipped(files) ==> AllSkipped(files[..|files| - 1])
  {
    if AllSkipped(files) {
      var init := files[..|files| - 1];
      forall i | 0 <= i < |init| ensures ProcessFile(init[i]).Skipped? {
        assert init[i] == files[i];
      }
    }
  }

  /** No file is kept exactly when every file is skipped. */
  lemma {:induction false} KeptEmptyIffAllSkipped(files: seq<SourceFile>)
    ensures Kept(files) == [] <==> AllSkipped(files)
  {
    if files != [] {
      var init := files[..|files| - 1];
      var last := ProcessFile(files[|files| - 1]);
      KeptEmptyIffAllSkipped(init);
      if last.Accepted? {
        assert Kept(files) != [];
        assert !AllSkipped(files);
      } else {
        assert Kept(files) == Kept(init);
        if AllSkipped(init) {
          forall i | 0 <= i < |files| ensures ProcessFile(files[i]).Skipped? {
            if i < |init| {
              assert files[i] == init[i];
            } else {
              assert i == |files| - 1;
              assert !last.Accepted?;
            }
          }
        }
        if AllSkipped(files) {
          forall i | 0 <= i < |init| ensures ProcessFile(init[i]).Skipped? {
            assert init[i] == files[i];
          }
        }
      }
    }
  }

  lemma {:induction false} ConcatAppend(a: seq<seq<Contact>>, b: seq<seq<Contact>>)
    ensures Concat(a + b) == Concat(a) + Concat(b)
    decreases |b|
  {
    if b != [] {
      var b' := b[..|b| - 1];
      assert (a + b)[..|a + b| - 1] == a + b';
      ConcatAppend(a, b');
    } else {
      assert a + b == a;
    }
  }

  /** The reported total equals the number of rows in the kept blocks. */
  lemma {:induction false} TotalIsKeptRowCount(files: seq<SourceFile>)
    ensures TotalCount(files) == RowCount(Kept(files))
  {
    if files != [] {
      var init := files[..|files| - 1];
      var last := ProcessFile(files[|files| - 1]);
      TotalIsKeptRowCount(init);
      assert TotalCount(files) == TotalCount(init) + last.Count();
      if last.Accepted? {
        assert Kept(files) == Kept(init) + [last.rows];
        RowCountAppend(Kept(init), last.rows);
      } else {
        assert Kept(files) == Kept(init) + [];
        assert Kept(init) + [] == Kept(init);
      }
    }
  }

  /** Processing `a` then `b` keeps the blocks of `a` followed by those of `b`. */
  lemma {:induction false} KeptAppend(a: seq<SourceFile>, b: seq<SourceFile>)
    ensures Kept(a + b) == Kept(a) + Kept(b)
    ensures TotalCount(a + b) == TotalCount(a) + TotalCount(b)
    decreases |b|
  {
    if b == [] {
      assert a + b == a;
    } else {
      var b' := b[..|b| - 1];
      assert (a + b)[..|a + b| - 1] == a + b';
      assert (a + b)[|a + b| - 1] == b[|b| - 1];
      KeptAppend(a, b');
    }
  }

  /** The combined output of `a + b` is that of `a` followed by that of `b`:
      files contribute in input order. */
  lemma CombinedAppend(a: seq<SourceFile>, b: seq<SourceFile>)
    ensures Combined(a + b) == Combined(a) + Combined(b)
  {
    KeptAppend(a, b);
    ConcatAppend(Kept(a), Kept(b));
  }

  /** What one file contributes on its own: its rows if accepted, else nothing. */
  lemma SingleFile(f: SourceFile)
    ensures Combined([f]) == (if ProcessFile(f).Accepted? then ProcessFile(f).rows else [])
    ensures TotalCount([f]) == ProcessFile(f).Count()
  {
    assert [f][..0] == [];
    var r := ProcessFile(f);
    if r.Accepted? {
      assert Concat([r.rows]) == Concat([]) + r.rows by {
        assert [r.rows][..0] == [];
      }
    }
  }

  /** A skipped file can be removed from the input without changing the
      combined output or the total. */
  lemma SkippedFileContributesNothing(a: seq<SourceFile>, f: SourceFile, b: seq<SourceFile>)
    requires ProcessFile(f).Skipped?
    ensures Combined(a + [f] + b) == Combined(a + b)
    ensures TotalCount(a + [f] + b) == TotalCount(a + b)
  {
    CombinedAppend(a + [f], b);
    CombinedAppend(a, [f]);
    CombinedAppend(a, b);
    KeptAppend(a + [f], b);
    KeptAppend(a, [f]);
    KeptAppend(a, b);
    SingleFile(f);
    assert Combined(a + [f]) == Combined(a);
  }
}
