/** The few pieces of Python value semantics the portal relies on: `None`,
    exceptions as values, the truthiness of optional configuration strings,
    and `str.strip()` with Python's notion of whitespace. */
module Py {

  /** A Python value that may be `None`. */
  datatype Option<+T> = None | Some(value: T)

  /** A Python computation that either returns a value or raises; a raised
      exception is kept as its text `str(e)`. */
  datatype Result<+T> = Ok(value: T) | Raised(description: string)

  /** `bool(x)` for a string read from the environment: `None` and `""` are false. */
  predicate Truthy(x: Option<string>) {
    x.Some? && x.value != ""
  }

  /** How an f-string renders an optional string: `None` becomes "None". */
  function Format(x: Option<string>): string {
    if x.Some? then x.value else "None"
  }

  /** `str(KeyError(key))`: the missing key between single quotes. */
  function KeyErrorText(key: string): string {
    "'" + key + "'"
  }

  /** `str(e)` of the IndexError raised by `[0]` on an empty list. */
  const IndexErrorText := "list index out of range"

  /** Python's `str.isspace()` for a single character. */
  predicate IsSpace(c: char) {
    || c == ' '
    || '\t' <= c <= '\r'
    || '\U{1C}' <= c <= '\U{1F}'
    || c == '\U{85}' || c == '\U{A0}' || c == '\U{1680}'
    || '\U{2000}' <= c <= '\U{200A}'
    || c == '\U{2028}' || c == '\U{2029}' || c == '\U{202F}'
    || c == '\U{205F}' || c == '\U{3000}'
  }

  /** Every character of `s` in the index range [lo, hi) is whitespace. */
  ghost predicate SpaceBetween(s: string, lo: int, hi: int)
    requires 0 <= lo <= hi <= |s|
  {
    forall k :: lo <= k < hi ==> IsSpace(s[k])
  }

  /** `s` neither begins nor ends with whitespace. */
  predicate Unpadded(s: string) {
    |s| == 0 || (!IsSpace(s[0]) && !IsSpace(s[|s| - 1]))
  }

  /** Cutting `s` at `i` and `j` removes exactly its leading and trailing
      whitespace: everything outside the cut is whitespace, and a non-empty
      cut begins and ends with a non-whitespace character. */
  ghost predicate StripCut(s: string, i: int, j: int) {
    && 0 <= i <= j <= |s|
    && SpaceBetween(s, 0, i) && SpaceBetween(s, j, |s|)
    && (i == j || (!IsSpace(s[i]) && !IsSpace(s[j - 1])))
  }

  /** `r` is `s` with its leading and trailing whitespace removed. */
  ghost predicate IsStripOf(s: string, r: string) {
    exists i, j :: StripCut(s, i, j) && r == s[i..j]
  }

  /** Scans forward from `i` past whitespace: the first index at or after
      `i` that is not whitespace, or `|s|`. */
  function SkipSpace(s: string, i: nat): (k: nat)
    requires i <= |s|
    ensures i <= k <= |s| && SpaceBetween(s, i, k)
    ensures k == |s| || !IsSpace(s[k])
    decreases |s| - i
  {
    if i < |s| && IsSpace(s[i]) then SkipSpace(s, i + 1) else i
  }

  /** Scans backward from `j`, not below `lo`, past whitespace: the end of
      the last non-whitespace character of `s[lo..j]`, or `lo`. */
  function SkipSpaceBack(s: string, lo: nat, j: nat): (k: nat)
    requires lo <= j <= |s|
    ensures lo <= k <= j && SpaceBetween(s, k, j)
    ensures k == lo || !IsSpace(s[k - 1])
    decreases j - lo
  {
    if lo < j && IsSpace(s[j - 1]) then SkipSpaceBack(s, lo, j - 1) else j
  }

  /** `s.strip()` */
  function Strip(s: string): (r: string)
    ensures Unpadded(r)
    ensures IsStripOf(s, r)
  {
    var i := SkipSpace(s, 0);
    var j := SkipSpaceBack(s, i, |s|);
    assert StripCut(s, i, j);
    assert i < j ==> s[i..j][0] == s[i] && s[i..j][j - i - 1] == s[j - 1];
    s[i..j]
  }

  /** Two ways of cutting whitespace off both ends of `s` that leave no
      whitespace at the ends of the cut are the same cut (or both empty). */
  lemma CutUnique(s: string, i1: int, j1: int, i2: int, j2: int)
    requires StripCut(s, i1, j1) && StripCut(s, i2, j2)
    ensures (i1 == j1 && i2 == j2) || (i1 == i2 && j1 == j2)
  {
    if i1 < j1 {
      assert i2 < j2;
      assert i1 == i2;
      assert j1 == j2;
    }
  }

  /** There is only one way to strip a string: `IsStripOf` determines its result. */
  lemma StripOfUnique(s: string, r1: string, r2: string)
    requires IsStripOf(s, r1) && IsStripOf(s, r2)
    ensures r1 == r2
  {
    var i1, j1 :| StripCut(s, i1, j1) && r1 == s[i1..j1];
    var i2, j2 :| StripCut(s, i2, j2) && r2 == s[i2..j2];
    CutUnique(s, i1, j1, i2, j2);
  }

  /** Stripping twice is stripping once. */
  lemma StripIdempotent(s: string)
    ensures Strip(Strip(s)) == Strip(s)
  {
    var r := Strip(s);
    assert r == r[0..|r|];
    assert StripCut(r, 0, |r|);
    StripOfUnique(r, r, Strip(r));
  }

  /** An unpadded string is its own strip. */
  lemma StripUnpadded(s: string)
    requires Unpadded(s)
    ensures Strip(s) == s
  {
    assert s == s[0..|s|];
    assert StripCut(s, 0, |s|);
    StripOfUnique(s, s, Strip(s));
  }
}
