/** Python string operations the normalizer relies on: `str.strip()` on column
    names, `str.startswith` on file names and `pathlib.PurePath.suffix`. */
module Text {

  /** A character Python's `str.isspace()` accepts; `str.strip()` with no
      argument removes exactly these from both ends. */
  predicate IsSpace(c: char) {
    c == ' ' || ('\t' <= c <= '\r') || ('\U{1C}' <= c <= '\U{1F}')
    || c == '\U{85}' || c == '\U{A0}' || c == '\U{1680}'
    || ('\U{2000}' <= c <= '\U{200A}') || c == '\U{2028}' || c == '\U{2029}'
    || c == '\U{202F}' || c == '\U{205F}' || c == '\U{3000}'
  }

  predicate AllSpace(s: string) {
    forall k :: 0 <= k < |s| ==> IsSpace(s[k])
  }

  /** True when `s` neither starts nor ends with whitespace. */
  predicate Tight(s: string) {
    s == [] || (!IsSpace(s[0]) && !IsSpace(s[|s| - 1]))
  }

  /** `s.startswith(prefix)`: `s` is at least as long as `prefix` and agrees
      with it character by character. */
  predicate StartsWith(s: string, prefix: string): (b: bool)
    ensures b <==> |prefix| <= |s| && forall k :: 0 <= k < |prefix| ==> s[k] == prefix[k]
  {
    |prefix| <= |s| && s[..|prefix|] == prefix
  }

  /** The first position at or after `i` that does not hold whitespace
      (or `|s|`): everything skipped over is whitespace. */
  function SkipSpaces(s: string, i: nat): (r: nat)
    requires i <= |s|
    ensures i <= r <= |s|
    ensures forall k :: i <= k < r ==> IsSpace(s[k])
    ensures r == |s| || !IsSpace(s[r])
    decreases |s| - i
  {
    if i < |s| && IsSpace(s[i]) then SkipSpaces(s, i + 1) else i
  }

  /** The end of `s[lo..j]` once trailing whitespace is dropped: everything
      dropped is whitespace, and what is kept does not end with any. */
  function DropSpaces(s: string, lo: nat, j: nat): (r: nat)
    requires lo <= j <= |s|
    ensures lo <= r <= j
    ensures forall k :: r <= k < j ==> IsSpace(s[k])
    ensures r == lo || !IsSpace(s[r - 1])
    decreases j
  {
    if lo < j && IsSpace(s[j - 1]) then DropSpaces(s, lo, j - 1) else j
  }

  /** `s.strip()`: leading whitespace is skipped, then trailing whitespace
      dropped; the result is `Tight`. StripOfPadded shows it is the only such
      middle part of `s`. */
  function Strip(s: string): (r: string)
    ensures |r| <= |s|
    ensures Tight(r)
  {
    var i := SkipSpaces(s, 0);
    s[i..DropSpaces(s, i, |s|)]
  }

  /** Strip is determined by its specification: whitespace around a `Tight`
      middle part is removed and the middle part is kept as it is. */
  lemma StripOfPadded(pre: string, m: string, post: string)
    requires AllSpace(pre) && AllSpace(post) && Tight(m)
    ensures Strip(pre + m + post) == m
  {
    var s := pre + m + post;
    var p, q := |pre|, |pre| + |m|;
    assert forall k :: 0 <= k < p ==> s[k] == pre[k];
    assert forall k :: p <= k < q ==> s[k] == m[k - p];
    assert forall k :: q <= k < |s| ==> s[k] == post[k - q];
    var i := SkipSpaces(s, 0);
    if m != [] {
      assert !IsSpace(s[p]) && !IsSpace(s[q - 1]);
      assert i == p;
      var j := DropSpaces(s, i, |s|);
      assert j == q;
      assert s[p..q] == m;
    }
  }

  /** Extra whitespace around a column name does not change its stripped form. */
  lemma StripIgnoresPadding(pre: string, s: string, post: string)
    requires AllSpace(pre) && AllSpace(post)
    ensures Strip(pre + s + post) == Strip(s)
  {
    var a, b := StripParts(s);
    AllSpaceConcat(pre, a);
    AllSpaceConcat(b, post);
    Regroup(pre, a, Strip(s), b, post);
    StripOfPadded(pre + a, Strip(s), b + post);
  }

  /** Every string is its stripped form with whitespace on either side. */
  lemma StripParts(s: string) returns (a: string, b: string)
    ensures AllSpace(a) && AllSpace(b)
    ensures s == a + Strip(s) + b
  {
    var i := SkipSpaces(s, 0);
    var j := DropSpaces(s, i, |s|);
    a, b := s[..i], s[j..];
    assert s == s[..i] + s[i..j] + s[j..];
  }

  lemma Regroup<T>(p: seq<T>, a: seq<T>, m: seq<T>, b: seq<T>, q: seq<T>)
    ensures p + (a + m + b) + q == (p + a) + m + (b + q)
  {
  }

  lemma AllSpaceConcat(a: string, b: string)
    requires AllSpace(a) && AllSpace(b)
    ensures AllSpace(a + b)
  {
    forall k | 0 <= k < |a + b| ensures IsSpace((a + b)[k]) {
      if k >= |a| { assert (a + b)[k] == b[k - |a|]; }
    }
  }

  /** The position of the last `c` in `s`, or -1 (Python's `str.rfind`). */
  function LastIndexOf(s: string, c: char): (i: int)
    ensures -1 <= i < |s|
    ensures i >= 0 ==> s[i] == c
    ensures forall k :: i < k < |s| ==> s[k] != c
  {
    if s == [] then -1
    else if s[|s| - 1] == c then |s| - 1
    else LastIndexOf(s[..|s| - 1], c)
  }

  /** `PurePath(name).suffix`: from the last dot to the end, provided that dot
      is neither the first nor the last character of the name, else "". */
  function Suffix(name: string): (r: string)
    ensures r == [] || (2 <= |r| < |name| && r[0] == '.' && r == name[|name| - |r|..])
    ensures r != [] ==> forall k :: 1 <= k < |r| ==> r[k] != '.'
  {
    var i := LastIndexOf(name, '.');
    if 0 < i < |name| - 1 then name[i..] else ""
  }

  /** A name made of a non-empty stem and an extension `.word` (a word without
      dots) has exactly that extension as its suffix. */
  lemma {:induction false} SuffixOfExtension(stem: string, word: string)
    requires stem != [] && word != []
    requires forall k :: 0 <= k < |word| ==> word[k] != '.'
    ensures Suffix(stem + "." + word) == "." + word
  {
    var name := stem + "." + word;
    var i := LastIndexOf(name, '.');
    assert name[|stem|] == '.';
    assert forall k :: |stem| < k < |name| ==> name[k] == word[k - |stem| - 1];
    assert i == |stem|;
    assert name[i..] == "." + word;
  }

  /** A name whose whole text is `.word` has no suffix (pathlib treats a
      leading dot as part of a hidden name). */
  lemma {:induction false} DotNameHasNoSuffix(word: string)
    requires forall k :: 0 <= k < |word| ==> word[k] != '.'
    ensures Suffix("." + word) == ""
  {
    var name := "." + word;
    assert name[0] == '.';
  }
}
