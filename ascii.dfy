/**
 * Character classes and the two Python string operations the importer relies on:
 * `str.lower()` (modelled on ASCII letters) and `str.strip()` (Python's whitespace set).
 */
module Ascii {

  /** `\w` of a regular expression, taken as ASCII letters, digits and the underscore. */
  predicate IsWordChar(c: char) {
    ('a' <= c <= 'z') || ('A' <= c <= 'Z') || ('0' <= c <= '9') || c == '_'
  }

  predicate AllWord(s: string) {
    forall i :: 0 <= i < |s| ==> IsWordChar(s[i])
  }

  predicate IsUpper(c: char) {
    'A' <= c <= 'Z'
  }

  /** A string with no ASCII upper-case letter, the shape of every `lower()` result. */
  predicate IsLowercase(s: string) {
    forall i :: 0 <= i < |s| ==> !IsUpper(s[i])
  }

  function LowerChar(c: char): char {
    if IsUpper(c) then (c as int + 32) as char else c
  }

  /** `str.lower()`, restricted to ASCII letters. */
  function Lower(s: string): (r: string)
    ensures |r| == |s|
    ensures IsLowercase(r)
    ensures forall i :: 0 <= i < |s| && !IsUpper(s[i]) ==> r[i] == s[i]
    ensures forall i :: 0 <= i < |s| && IsUpper(s[i]) ==> r[i] as int == s[i] as int + 32
  {
    seq(|s|, i requires 0 <= i < |s| => LowerChar(s[i]))
  }

  /** Lowering distributes over concatenation. */
  lemma LowerConcat(a: string, b: string)
    ensures Lower(a + b) == Lower(a) + Lower(b)
  {
    assert forall i :: 0 <= i < |a + b| ==> Lower(a + b)[i] == (Lower(a) + Lower(b))[i];
  }

  /** Lowering an already lower-case string changes nothing. */
  lemma LowerOfLowercase(s: string)
    requires IsLowercase(s)
    ensures Lower(s) == s
  {
  }

  /** Lowering twice is lowering once. */
  lemma LowerIdempotent(s: string)
    ensures Lower(Lower(s)) == Lower(s)
  {
    LowerOfLowercase(Lower(s));
  }

  /** `str.isspace()` for one character: Python's whitespace set, which `str.strip()` removes. */
  predicate IsSpace(c: char) {
    var n := c as int;
    n == 0x20 || (0x09 <= n <= 0x0D) || (0x1C <= n <= 0x1F) || n == 0x85 || n == 0xA0
    || n == 0x1680 || (0x2000 <= n <= 0x200A) || n == 0x2028 || n == 0x2029
    || n == 0x202F || n == 0x205F || n == 0x3000
  }

  predicate AllSpace(s: string) {
    forall i :: 0 <= i < |s| ==> IsSpace(s[i])
  }

  /** A string that neither starts nor ends with whitespace. */
  predicate IsTrimmed(s: string) {
    s == [] || (!IsSpace(s[0]) && !IsSpace(s[|s| - 1]))
  }

  /** Where the run of whitespace starting at `i` ends. */
  function SpaceRunEnd(s: string, i: nat): (k: nat)
    requires i <= |s|
    ensures i <= k <= |s|
    ensures forall j :: i <= j < k ==> IsSpace(s[j])
    ensures k == |s| || !IsSpace(s[k])
    decreases |s| - i
  {
    if i < |s| && IsSpace(s[i]) then SpaceRunEnd(s, i + 1) else i
  }

  /** Where the run of whitespace ending just before `j` begins, looking no further back than `lo`. */
  function SpaceRunStart(s: string, lo: nat, j: nat): (k: nat)
    requires lo <= j <= |s|
    ensures lo <= k <= j
    ensures forall m :: k <= m < j ==> IsSpace(s[m])
    ensures k == lo || !IsSpace(s[k - 1])
    decreases j - lo
  {
    if lo < j && IsSpace(s[j - 1]) then SpaceRunStart(s, lo, j - 1) else j
  }

  /**
   * `str.strip()`: the result is a slice of `s` that is not bordered by whitespace,
   * and everything cut away on either side is whitespace.
   */
  function Strip(s: string): (r: string)
    ensures IsTrimmed(r)
    ensures exists a :: 0 <= a <= |s| - |r| && r == s[a..a + |r|]
                        && AllSpace(s[..a]) && AllSpace(s[a + |r|..])
  {
    var a := SpaceRunEnd(s, 0);
    var b := SpaceRunStart(s, a, |s|);
    assert AllSpace(s[..a]);
    assert AllSpace(s[b..]);
    assert s[a..b] == s[a..a + (b - a)];
    s[a..b]
  }

  /** The run of whitespace from `i` is exactly `s[i..k]` when `s[k]` is not whitespace. */
  lemma {:induction false} SpaceRunEndIs(s: string, i: nat, k: nat)
    requires i <= k <= |s|
    requires forall j :: i <= j < k ==> IsSpace(s[j])
    requires k == |s| || !IsSpace(s[k])
    ensures SpaceRunEnd(s, i) == k
    decreases k - i
  {
    if i < k {
      SpaceRunEndIs(s, i + 1, k);
    }
  }

  /** The run of whitespace before `j` is exactly `s[k..j]` when `s[k - 1]` is not whitespace. */
  lemma {:induction false} SpaceRunStartIs(s: string, lo: nat, k: nat, j: nat)
    requires lo <= k <= j <= |s|
    requires forall m :: k <= m < j ==> IsSpace(s[m])
    requires k == lo || !IsSpace(s[k - 1])
    ensures SpaceRunStart(s, lo, j) == k
    decreases j - k
  {
    if k < j {
      SpaceRunStartIs(s, lo, k, j - 1);
    }
  }

  /**
   * Strip is determined by its contract: whitespace around a trimmed middle is
   * exactly what it removes.
   */
  lemma StripUnique(w1: string, m: string, w2: string)
    requires AllSpace(w1) && AllSpace(w2) && IsTrimmed(m)
    ensures Strip(w1 + m + w2) == m
  {
    var s := w1 + m + w2;
    if m == [] {
      SpaceRunEndIs(s, 0, |s|);
      SpaceRunStartIs(s, |s|, |s|, |s|);
      assert s[|s|..|s|] == m;
    } else {
      assert s[|w1|] == m[0];
      SpaceRunEndIs(s, 0, |w1|);
      assert s[|w1| + |m| - 1] == m[|m| - 1];
      SpaceRunStartIs(s, |w1|, |w1| + |m|, |s|);
      assert s[|w1|..|w1| + |m|] == m;
    }
  }

  /** A string already free of surrounding whitespace is left alone by Strip. */
  lemma StripTrimmed(s: string)
    requires IsTrimmed(s)
    ensures Strip(s) == s
  {
    assert [] + s + [] == s;
    StripUnique([], s, []);
  }
}
