/**
 * `re.match(r'(.*)\$({\w*})(.*)', data)`, the placeholder pattern shared by the
 * importer's scalar presenter and the stand-alone script test/match.py.
 *
 * `re.match` is anchored at the start of `data` but not at its end, and `.` does not
 * match a newline, so the whole match lies on the first line. The greedy first group
 * makes the matcher try the latest `$` first: the occurrence rewritten is the LAST
 * `${word*}` on the first line. The third group runs to the end of that line; text
 * after the first newline is not in any group.
 */
module Placeholder {
  import opened Wrappers
  import opened Ascii

  /** The text before the first newline, which is all that `.` can reach. */
  function FirstLine(s: string): (line: string)
    ensures line <= s
    ensures '\n' !in line
    ensures |line| < |s| ==> s[|line|] == '\n'
  {
    if s == [] || s[0] == '\n' then [] else [s[0]] + FirstLine(s[1..])
  }

  /** The end of the run of word characters that starts at `k`: where `\w*` stops. */
  function TokenEnd(line: string, k: nat): (e: nat)
    requires k <= |line|
    ensures k <= e <= |line|
    ensures AllWord(line[k..e])
    ensures e < |line| ==> !IsWordChar(line[e])
    decreases |line| - k
  {
    if k < |line| && IsWordChar(line[k]) then TokenEnd(line, k + 1) else k
  }

  /** `\$({\w*})` matches at position `i` of the line. */
  predicate PlaceholderAt(line: string, i: nat) {
    i + 2 <= |line| && line[i] == '$' && line[i + 1] == '{'
    && TokenEnd(line, i + 2) < |line| && line[TokenEnd(line, i + 2)] == '}'
  }

  /** No `${word*}` starts anywhere in `s`. */
  predicate NoPlaceholder(s: string) {
    forall k :: 0 <= k < |s| ==> !PlaceholderAt(s, k)
  }

  /** The latest position below `k` where a placeholder starts: the backtracking order of `(.*)`. */
  function LastPlaceholder(line: string, k: nat): (r: Option<nat>)
    requires k <= |line|
    ensures r.Some? ==> r.value < k && PlaceholderAt(line, r.value)
    ensures r.Some? ==> forall m :: r.value < m < k ==> !PlaceholderAt(line, m)
    ensures r.None? ==> forall m :: 0 <= m < k ==> !PlaceholderAt(line, m)
  {
    if k == 0 then None
    else if PlaceholderAt(line, k - 1) then Some(k - 1)
    else LastPlaceholder(line, k - 1)
  }

  /** A string of the form `{word*}`, as group 2 always is. */
  predicate IsBracedToken(t: string) {
    |t| >= 2 && t[0] == '{' && t[|t| - 1] == '}' && AllWord(t[1..|t| - 1])
  }

  /** The three groups of a successful match. */
  datatype Groups = Groups(prefix: string, braced: string, suffix: string)

  /** The groups of a match whose `$` is at position `i` of the line. */
  function GroupsAt(line: string, i: nat): (g: Groups)
    requires PlaceholderAt(line, i)
    ensures |g.prefix| == i
    ensures g.prefix + "$" + g.braced + g.suffix == line
    ensures IsBracedToken(g.braced)
  {
    var e := TokenEnd(line, i + 2);
    BracedRun(line, i, e);
    SplitAround(line, i, e);
    Groups(line[..i], line[i + 1..e + 1], line[e + 1..])
  }

  /** The text from the `{` after `$` to the `}` that ends the word run has the `{word*}` shape. */
  lemma BracedRun(line: string, i: nat, e: nat)
    requires PlaceholderAt(line, i) && e == TokenEnd(line, i + 2)
    ensures IsBracedToken(line[i + 1..e + 1])
  {
    var b := line[i + 1..e + 1];
    assert |b| == e - i && b[0] == '{' && b[|b| - 1] == '}';
    var inner := b[1..|b| - 1];
    forall k | 0 <= k < |inner| ensures IsWordChar(inner[k]) {
      assert inner[k] == line[i + 2..e][k];
    }
  }

  /** The line reassembled around the `$` at `i` and the `}` at `e`. */
  lemma SplitAround(line: string, i: nat, e: nat)
    requires i < e < |line| && line[i] == '$'
    ensures line[..i] + "$" + line[i + 1..e + 1] + line[e + 1..] == line
  {
    assert line[i..i + 1] == "$";
    assert line == line[..i] + line[i..i + 1] + line[i + 1..e + 1] + line[e + 1..];
  }

  /**
   * The match itself. On success the groups reassemble the first line with the `$`
   * removed, the middle group has the `{word*}` shape, and no placeholder starts
   * after the chosen one. There is no match exactly when the first line holds no
   * placeholder.
   */
  function Match(data: string): (m: Option<Groups>)
    ensures m.None? <==> NoPlaceholder(FirstLine(data))
    ensures m.Some? ==> m.value.prefix + "$" + m.value.braced + m.value.suffix == FirstLine(data)
    ensures m.Some? ==> IsBracedToken(m.value.braced)
    ensures m.Some? ==> PlaceholderAt(FirstLine(data), |m.value.prefix|)
    ensures m.Some? ==> forall k :: |m.value.prefix| < k < |FirstLine(data)| ==> !PlaceholderAt(FirstLine(data), k)
  {
    var line := FirstLine(data);
    match LastPlaceholder(line, |line|)
    case None => None
    case Some(i) => Some(GroupsAt(line, i))
  }

  /** The replacement both callers build: `"{0}{{{1}}}{2}".format(g1, g2, g3)`. */
  function Substitute(g: Groups): string {
    g.prefix + "{" + g.braced + "}" + g.suffix
  }

  // ---------------------------------------------------------------------------
  // Lemmas: what Match returns for a string built from known parts.
  // ---------------------------------------------------------------------------

  lemma {:induction false} FirstLineOf(line: string, rest: string)
    requires '\n' !in line
    requires rest == [] || rest[0] == '\n'
    ensures FirstLine(line + rest) == line
    decreases |line|
  {
    if line != [] {
      assert (line + rest)[1..] == line[1..] + rest;
      FirstLineOf(line[1..], rest);
    } else {
      assert line + rest == rest;
    }
  }

  lemma {:induction false} TokenEndShift(a: string, b: string, k: nat)
    requires k <= |b|
    ensures TokenEnd(a + b, |a| + k) == |a| + TokenEnd(b, k)
    decreases |b| - k
  {
    if k < |b| && IsWordChar(b[k]) {
      TokenEndShift(a, b, k + 1);
    }
  }

  /** A placeholder is recognised the same way after any text is put in front. */
  lemma PlaceholderAtShift(a: string, b: string, k: nat)
    ensures PlaceholderAt(a + b, |a| + k) <==> PlaceholderAt(b, k)
  {
    if k + 2 <= |b| {
      TokenEndShift(a, b, k + 2);
    }
  }

  lemma TokenEndOfWord(line: string, k: nat, e: nat)
    requires k <= e < |line|
    requires AllWord(line[k..e]) && !IsWordChar(line[e])
    ensures TokenEnd(line, k) == e
    decreases e - k
  {
    if k < e {
      assert IsWordChar(line[k..e][0]);
      assert line[k + 1..e] == line[k..e][1..];
      TokenEndOfWord(line, k + 1, e);
    }
  }

  /** Nothing after that placeholder starts another one unless `suffix` holds it. */
  lemma NoPlaceholderAfter(prefix: string, token: string, suffix: string)
    requires AllWord(token)
    requires NoPlaceholder(suffix)
    ensures forall k :: |prefix| < k < |prefix + "${" + token + "}" + suffix|
                        ==> !PlaceholderAt(prefix + "${" + token + "}" + suffix, k)
  {
    var head := prefix + "${" + token + "}";
    var line := head + suffix;
    assert line == prefix + "${" + token + "}" + suffix;
    var i := |prefix|;
    forall k | i < k < |line|
      ensures !PlaceholderAt(line, k)
    {
      if k < |head| {
        assert line[k] == head[k];
        if i + 2 <= k < |head| - 1 {
          assert head[k] == token[k - i - 2];
        }
      } else {
        PlaceholderAtShift(head, suffix, k - |head|);
      }
    }
  }

  /**
   * The rewrite picks out the last placeholder: if the first line is
   * `prefix + "${" + token + "}" + suffix` with no placeholder in `suffix`, the
   * groups are `prefix`, `"{" + token + "}"` and `suffix`, and whatever follows the
   * first newline (`rest`) is in none of them.
   */
  lemma {:induction false} MatchOfParts(prefix: string, token: string, suffix: string, rest: string)
    requires '\n' !in prefix + "${" + token + "}" + suffix
    requires AllWord(token)
    requires NoPlaceholder(suffix)
    requires rest == [] || rest[0] == '\n'
    ensures Match(prefix + "${" + token + "}" + suffix + rest)
         == Some(Groups(prefix, "{" + token + "}", suffix))
  {
    var line := prefix + "${" + token + "}" + suffix;
    var data := line + rest;
    FirstLineOf(line, rest);
    NoPlaceholderAfter(prefix, token, suffix);
    GroupsOfParts(prefix, token, suffix);
    assert Match(data) == Some(GroupsAt(line, |prefix|));
  }

  lemma GroupsOfParts(prefix: string, token: string, suffix: string)
    requires AllWord(token)
    ensures PlaceholderAt(prefix + "${" + token + "}" + suffix, |prefix|)
    ensures GroupsAt(prefix + "${" + token + "}" + suffix, |prefix|)
         == Groups(prefix, "{" + token + "}", suffix)
  {
    var line := prefix + "${" + token + "}" + suffix;
    var i := |prefix|;
    var e := i + 2 + |token|;
    assert line[..i] == prefix;
    assert line[i] == '$' && line[i + 1] == '{' && line[e] == '}';
    assert line[i + 2..e] == token;
    TokenEndOfWord(line, i + 2, e);
    assert line[i + 1..e + 1] == "{" + token + "}";
    assert line[e + 1..] == suffix;
  }

  /** The replacement of the groups `prefix`, `{token}`, `suffix` doubles the braces: `prefix{{token}}suffix`. */
  lemma SubstituteParts(prefix: string, token: string, suffix: string)
    ensures Substitute(Groups(prefix, "{" + token + "}", suffix)) == prefix + "{{" + token + "}}" + suffix
  {
    var inner := "{" + ("{" + token + "}") + "}";
    assert inner == "{{" + token + "}}";
    assert prefix + "{" + ("{" + token + "}") + "}" + suffix == prefix + inner + suffix;
  }

  /** A first line without `$` never matches. */
  lemma NoDollarNoMatch(data: string)
    requires '$' !in FirstLine(data)
    ensures Match(data) == None
  {
    var line := FirstLine(data);
    forall k | 0 <= k < |line| ensures !PlaceholderAt(line, k) {
      assert line[k] in line;
    }
  }
}
