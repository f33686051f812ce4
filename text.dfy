/** The two JavaScript string primitives the orchestration layer relies on:
    `String.prototype.trim` (used for the empty-input guard and before windowing)
    and `charAt(0).toUpperCase() + slice(1)` (used by ensureTask to derive a
    global's name from a task key). Strings are sequences of code points. */
module Text {

  /** The code points ECMAScript's trim removes: WhiteSpace and LineTerminator. */
  const Whitespace: set<char> :=
    {'\t', '\n', '\U{0B}', '\U{0C}', '\r', ' ', '\U{A0}', '\U{1680}',
     '\U{2000}', '\U{2001}', '\U{2002}', '\U{2003}', '\U{2004}', '\U{2005}',
     '\U{2006}', '\U{2007}', '\U{2008}', '\U{2009}', '\U{200A}',
     '\U{2028}', '\U{2029}', '\U{202F}', '\U{205F}', '\U{3000}', '\U{FEFF}'}

  predicate IsWhitespace(c: char)
  {
    c in Whitespace
  }

  /** How many whitespace code points `s` starts with: all of them are whitespace and
      the one after them, if any, is not. */
  function Leading(s: string): (n: nat)
    ensures n <= |s|
    ensures forall i :: 0 <= i < n ==> IsWhitespace(s[i])
    ensures n < |s| ==> !IsWhitespace(s[n])
  {
    if s != [] && IsWhitespace(s[0]) then 1 + Leading(s[1..]) else 0
  }

  /** How many whitespace code points `s` ends with: all of them are whitespace and
      the one before them, if any, is not. */
  function Trailing(s: string): (n: nat)
    ensures n <= |s|
    ensures forall i :: |s| - n <= i < |s| ==> IsWhitespace(s[i])
    ensures n < |s| ==> !IsWhitespace(s[|s| - 1 - n])
  {
    if s != [] && IsWhitespace(s[|s| - 1]) then 1 + Trailing(s[..|s| - 1]) else 0
  }

  /** `s.trim()`: the piece of `s` that follows its leading whitespace and is
      followed only by whitespace. It starts and ends with a non-whitespace code point,
      and it is empty exactly when `s` is whitespace throughout. */
  function Trim(s: string): (r: string)
    ensures Leading(s) + |r| <= |s| && s[Leading(s)..Leading(s) + |r|] == r
    ensures forall i :: Leading(s) + |r| <= i < |s| ==> IsWhitespace(s[i])
    ensures r == [] || (!IsWhitespace(r[0]) && !IsWhitespace(r[|r| - 1]))
    ensures r == [] <==> forall i :: 0 <= i < |s| ==> IsWhitespace(s[i])
  {
    var rest := s[Leading(s)..];
    TrimShape(s);
    rest[..|rest| - Trailing(rest)]
  }

  /** The facts behind Trim's contract, one step at a time. */
  lemma TrimShape(s: string)
    ensures var start := Leading(s);
      var rest := s[start..];
      var r := rest[..|rest| - Trailing(rest)];
      && start + |r| <= |s| && s[start..start + |r|] == r
      && (forall i :: start + |r| <= i < |s| ==> IsWhitespace(s[i]))
      && (r == [] || (!IsWhitespace(r[0]) && !IsWhitespace(r[|r| - 1])))
      && (r == [] <==> forall i :: 0 <= i < |s| ==> IsWhitespace(s[i]))
  {
    var start := Leading(s);
    var rest := s[start..];
    var end := |rest| - Trailing(rest);
    var r := rest[..end];
    assert s[start..start + end] == r;
    forall i | start + end <= i < |s| ensures IsWhitespace(s[i]) {
      assert s[i] == rest[i - start];
    }
    if r != [] {
      assert r[0] == s[start];
      assert r[|r| - 1] == rest[|rest| - 1 - Trailing(rest)];
      assert !IsWhitespace(s[start]);
    }
    if forall i :: 0 <= i < |s| ==> IsWhitespace(s[i]) {
      assert start == |s|;
    }
  }

  /** `!content || !content.trim()`: true exactly for the empty and whitespace-only strings. */
  predicate Blank(content: string)
  {
    Trim(content) == []
  }

  /** `toUpperCase` of one character, for the ASCII letters task keys are written in. */
  function UpperCase(c: char): char
  {
    if 'a' <= c <= 'z' then (c as int - 32) as char else c
  }

  /** `key.charAt(0).toUpperCase() + key.slice(1)`: only the first character can change. */
  function CapitalizeFirst(key: string): (r: string)
    ensures |r| == |key|
    ensures forall i :: 1 <= i < |key| ==> r[i] == key[i]
    ensures key != [] ==> r[0] == UpperCase(key[0]) && !('a' <= r[0] <= 'z')
  {
    if key == [] then [] else [UpperCase(key[0])] + key[1..]
  }

  /** The two task keys the source passes to ensureTask become the global names
      "Summarizer" and "Prompt". */
  lemma CapitalizedTaskKeys()
    ensures CapitalizeFirst("summarizer") == "Summarizer"
    ensures CapitalizeFirst("prompt") == "Prompt"
  {
  }
}
