/**
 * The JavaScript string primitives that the cache's helpers are built from:
 * `lastIndexOf`, `split(c)[0]`, `split(c).pop()`, `toLowerCase`, a global
 * `replace` that deletes characters, and the character classes that the
 * regular expressions of the cache use (`\s`, and the line terminators that
 * `.` does not match).
 *
 * Strings are sequences of Unicode scalar values.
 */
module JsStrings {

  /** JavaScript truthiness of a string value: only the empty string is falsy. */
  predicate Truthy(s: string) {
    |s| > 0
  }

  /** LineTerminator of ECMA-262 5.1 section 7.3: the characters `.` never matches. */
  predicate IsLineTerminator(c: char) {
    c == '\n' || c == '\r' || c == '\U{2028}' || c == '\U{2029}'
  }

  /** The characters matched by the regular-expression class `\s`
      (WhiteSpace and LineTerminator of ECMA-262 5.1 sections 7.2 and 7.3). */
  predicate IsWhiteSpace(c: char) {
    c == '\t' || c == '\U{000B}' || c == '\U{000C}' || c == ' ' || c == '\U{00A0}'
    || c == '\U{FEFF}' || c == '\U{1680}' || ('\U{2000}' <= c <= '\U{200A}')
    || c == '\U{202F}' || c == '\U{205F}' || c == '\U{3000}'
    || IsLineTerminator(c)
  }

  /** `s.lastIndexOf(c)`: the largest index holding `c`, or -1 when there is none. */
  function LastIndexOf(s: string, c: char): (r: int)
    ensures -1 <= r < |s|
    ensures r >= 0 ==> s[r] == c
    ensures forall k :: r < k < |s| ==> s[k] != c
  {
    if |s| == 0 then -1
    else if s[|s| - 1] == c then |s| - 1
    else LastIndexOf(s[..|s| - 1], c)
  }

  /** The index of the first character of `s` that belongs to `cs`, or `|s|`
      when there is none. */
  function IndexOfAny(s: string, cs: set<char>): (r: nat)
    ensures r <= |s|
    ensures r < |s| ==> s[r] in cs
    ensures forall k :: 0 <= k < r ==> s[k] !in cs
  {
    if |s| == 0 then 0
    else if s[0] in cs then 0
    else 1 + IndexOfAny(s[1..], cs)
  }

  /** `s.split(c)[0]`: the text before the first `c` (all of `s` when there is none). */
  function BeforeFirst(s: string, c: char): (r: string)
    ensures |r| <= |s| && r == s[..|r|]
    ensures c !in r
    ensures |r| == |s| || s[|r|] == c
  {
    s[..IndexOfAny(s, {c})]
  }

  /** `s.split(c).pop()`: the text after the last `c` (all of `s` when there is none). */
  function AfterLast(s: string, c: char): (r: string)
    ensures |r| <= |s| && r == s[|s| - |r|..]
    ensures c !in r
    ensures |r| == |s| || s[|s| - |r| - 1] == c
  {
    s[LastIndexOf(s, c) + 1..]
  }

  /** `toLowerCase` on one character, for the ASCII letters. */
  function LowerChar(c: char): char {
    if 'A' <= c <= 'Z' then (c as int + 32) as char else c
  }

  /** `s.toLowerCase()`, restricted to the ASCII letters. */
  function ToLower(s: string): (r: string)
    ensures |r| == |s|
  {
    seq(|s|, i requires 0 <= i < |s| => LowerChar(s[i]))
  }

  /** Lower-casing maps a character that is not an ASCII upper-case letter to itself
      and never produces one such character from another, so it keeps the
      separators `/`, `.` and `?` exactly where they were. */
  lemma LowerKeepsSeparators(s: string, sep: char)
    requires !('A' <= sep <= 'Z') && !('a' <= sep <= 'z')
    ensures forall i :: 0 <= i < |s| ==> (ToLower(s)[i] == sep <==> s[i] == sep)
  {
  }

  /** `s.replace(/([...])/g, '')`: `s` with every character of `cs` deleted. */
  function RemoveChars(s: string, cs: set<char>): (r: string)
    ensures |r| <= |s|
    ensures forall c :: c in r ==> c in s && c !in cs
    ensures (forall c :: c in s ==> c !in cs) ==> r == s
  {
    if |s| == 0 then []
    else if s[0] in cs then RemoveChars(s[1..], cs)
    else [s[0]] + RemoveChars(s[1..], cs)
  }

  /** Deleting distributes over concatenation. */
  lemma {:induction false} RemoveCharsAppend(a: string, b: string, cs: set<char>)
    ensures RemoveChars(a + b, cs) == RemoveChars(a, cs) + RemoveChars(b, cs)
  {
    if |a| > 0 {
      assert (a + b)[0] == a[0];
      assert (a + b)[1..] == a[1..] + b;
      RemoveCharsAppend(a[1..], b, cs);
      if a[0] !in cs {
        var x, y := RemoveChars(a[1..], cs), RemoveChars(b, cs);
        assert [a[0]] + (x + y) == ([a[0]] + x) + y;
      }
    } else {
      assert a + b == b;
    }
  }
}
