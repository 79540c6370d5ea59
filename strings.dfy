/**
 * The handful of string primitives that the chat component and the agent
 * pipeline rely on, defined over `seq<char>`: JavaScript's `trim`,
 * `indexOf`/`includes`, `replace` with a string pattern and a literal
 * replacement, and `split(sep)[0]`, plus the "text after the last separator" view used to
 * read the last line of a composed prompt.
 */
module Strings {
  import opened Wrappers

  /**
   * ECMAScript's WhiteSpace and LineTerminator code points: exactly the
   * characters that `String.prototype.trim` strips from either end.
   */
  predicate IsWhitespace(c: char) {
    c == '\t' || c == '\n' || c == '\U{000B}' || c == '\U{000C}' || c == '\r' || c == ' '
    || c == '\U{00A0}' || c == '\U{1680}' || ('\U{2000}' <= c <= '\U{200A}')
    || c == '\U{2028}' || c == '\U{2029}' || c == '\U{202F}' || c == '\U{205F}'
    || c == '\U{3000}' || c == '\U{FEFF}'
  }

  /** Every character of `s` is whitespace (the empty string included). */
  predicate IsBlank(s: string) {
    forall i :: 0 <= i < |s| ==> IsWhitespace(s[i])
  }

  /** `s.trimStart()`: drops the leading run of whitespace and nothing else. */
  function TrimStart(s: string): (r: string)
    ensures |r| <= |s| && r == s[|s| - |r|..]
    ensures forall i :: 0 <= i < |s| - |r| ==> IsWhitespace(s[i])
    ensures r != [] ==> !IsWhitespace(r[0])
  {
    if s != [] && IsWhitespace(s[0]) then TrimStart(s[1..]) else s
  }

  /** `s.trimEnd()`: drops the trailing run of whitespace and nothing else. */
  function TrimEnd(s: string): (r: string)
    ensures |r| <= |s| && r == s[..|r|]
    ensures forall i :: |r| <= i < |s| ==> IsWhitespace(s[i])
    ensures r != [] ==> !IsWhitespace(r[|r| - 1])
  {
    if s != [] && IsWhitespace(s[|s| - 1]) then TrimEnd(s[..|s| - 1]) else s
  }

  /** `s.trim()`: the input less its leading and trailing runs of whitespace. */
  function Trim(s: string): (r: string)
    ensures exists a, b :: 0 <= a <= b <= |s| && r == s[a..b] && IsBlank(s[..a]) && IsBlank(s[b..])
    ensures r != [] ==> !IsWhitespace(r[0]) && !IsWhitespace(r[|r| - 1])
  {
    var t := TrimStart(s);
    var r := TrimEnd(t);
    var a := |s| - |t|;
    assert r == s[a..a + |r|] && IsBlank(s[..a]) && IsBlank(s[a + |r|..]);
    r
  }

  /** The trimmed string is empty exactly when the whole string is whitespace. */
  lemma TrimEmptyIffBlank(s: string)
    ensures Trim(s) == [] <==> IsBlank(s)
  {
  }

  /** `p` occurs in `s` starting at index `i`. */
  predicate OccursAt(s: string, p: string, i: nat) {
    i + |p| <= |s| && s[i..i + |p|] == p
  }

  /** The first occurrence of `p` in `s` at or after `from`. */
  function IndexOfFrom(s: string, p: string, from: nat): (r: Option<nat>)
    requires from <= |s|
    ensures r.Some? ==> from <= r.value && OccursAt(s, p, r.value)
    ensures r.Some? ==> forall j :: from <= j < r.value ==> !OccursAt(s, p, j)
    ensures r.None? ==> forall j :: from <= j <= |s| ==> !OccursAt(s, p, j)
    decreases |s| - from
  {
    if OccursAt(s, p, from) then Some(from)
    else if from == |s| then None
    else IndexOfFrom(s, p, from + 1)
  }

  /** `s.indexOf(p)`, with `None` for JavaScript's `-1`. */
  function IndexOf(s: string, p: string): Option<nat> {
    IndexOfFrom(s, p, 0)
  }

  /** `s.includes(p)`. */
  function Contains(s: string, p: string): (r: bool)
    ensures r <==> exists i :: 0 <= i <= |s| && OccursAt(s, p, i)
  {
    IndexOf(s, p).Some?
  }

  /**
   * `s.replace(p, rep)` with a string pattern and a replacement free of `$`
   * patterns (which JavaScript would expand): only the FIRST occurrence of
   * `p` is replaced by `rep` as literal text; without an occurrence the
   * string is returned as is.
   */
  function ReplaceFirst(s: string, p: string, rep: string): (r: string)
    ensures !Contains(s, p) ==> r == s
    ensures Contains(s, p) ==> exists i: nat :: && OccursAt(s, p, i)
                                                && (forall j: nat :: j < i ==> !OccursAt(s, p, j))
                                                && r == s[..i] + rep + s[i + |p|..]
  {
    match IndexOf(s, p)
    case None => s
    case Some(i) => s[..i] + rep + s[i + |p|..]
  }

  /** A string that starts with the pattern has exactly that prefix replaced. */
  lemma ReplaceFirstOfPrefix(p: string, t: string, rep: string)
    ensures ReplaceFirst(p + t, p, rep) == rep + t
  {
    assert OccursAt(p + t, p, 0) by { assert (p + t)[0..|p|] == p; }
    assert IndexOf(p + t, p) == Some(0);
    assert (p + t)[|p|..] == t;
  }

  /**
   * `s.split([c])[0]`: the text before the first `c`, or all of `s` when
   * `c` does not occur.
   */
  function BeforeFirst(s: string, c: char): (r: string)
    ensures |r| <= |s| && r == s[..|r|]
    ensures c !in r
    ensures |r| < |s| ==> s[|r|] == c
  {
    if s == [] || s[0] == c then [] else [s[0]] + BeforeFirst(s[1..], c)
  }

  /** The text after the last `c`, or all of `s` when `c` does not occur. */
  function AfterLast(s: string, c: char): (r: string)
    ensures |r| <= |s| && r == s[|s| - |r|..]
    ensures c !in r
    ensures |r| < |s| ==> s[|s| - |r| - 1] == c
  {
    if s == [] || s[|s| - 1] == c then [] else AfterLast(s[..|s| - 1], c) + [s[|s| - 1]]
  }

  /** A line is cut exactly at the separator that follows it. */
  lemma {:induction false} BeforeFirstOfLine(line: string, c: char, rest: string)
    requires c !in line
    ensures BeforeFirst(line + [c] + rest, c) == line
  {
    if line != [] {
      assert (line + [c] + rest)[1..] == line[1..] + [c] + rest;
      BeforeFirstOfLine(line[1..], c, rest);
    } else {
      assert (line + [c] + rest)[0] == c;
    }
  }

  /** The last line is read back exactly when it holds no separator. */
  lemma {:induction false} AfterLastOfLine(init: string, c: char, line: string)
    requires c !in line
    ensures AfterLast(init + [c] + line, c) == line
    decreases |line|
  {
    var s := init + [c] + line;
    if line != [] {
      assert s[..|s| - 1] == init + [c] + line[..|line| - 1];
      assert s[|s| - 1] == line[|line| - 1];
      AfterLastOfLine(init, c, line[..|line| - 1]);
    } else {
      assert s[|s| - 1] == c;
    }
  }
}
