/**
 * The `URI` helper: the regular expression of Appendix B of RFC 2396
 * (repeated in Appendix B of RFC 3986),
 *   ^(?:([^:/?#]+):)?(?://([^/?#]*))?([^?#]*)(?:\?([^#]*))?(?:#(.*))?
 * applied to a string, each group then replaced by null when it is empty or
 * did not take part (`result[i] || null`).
 */
module UriParts {
  import opened Wrappers
  import opened JsStrings

  /** The groups of the match; `None` for a group that did not take part. */
  datatype RawMatch = RawMatch(
    scheme: Option<string>, authority: Option<string>, path: string,
    query: Option<string>, fragment: Option<string>)

  /** The fields of a `URI` object; `None` stands for null. */
  datatype Uri = Uri(
    scheme: Option<string>, authority: Option<string>, path: Option<string>,
    query: Option<string>, fragment: Option<string>)

  /** The set of the characters that a group may not contain. */
  predicate Avoids(s: string, cs: set<char>) {
    forall i :: 0 <= i < |s| ==> s[i] !in cs
  }

  predicate NoLineTerminator(s: string) {
    forall i :: 0 <= i < |s| ==> !IsLineTerminator(s[i])
  }

  const LineTerminators: set<char> := {'\n', '\r', '\U{2028}', '\U{2029}'}

  /** The text the match consumed, rebuilt from its groups. */
  function Recompose(m: RawMatch): string {
    Tagged(m.scheme, "", ":") + Tagged(m.authority, "//", "") + m.path
    + Tagged(m.query, "?", "") + Tagged(m.fragment, "#", "")
  }

  /** The text of an optional group with its delimiters; empty when it did not take part. */
  function Tagged(g: Option<string>, before: string, after: string): string {
    if g.Some? then before + g.value + after else ""
  }

  /** What follows the scheme group (all of `s` when it did not take part). */
  function SchemeSplit(s: string): (r: (Option<string>, string))
    ensures r.0.Some? ==> s == r.0.value + ":" + r.1
    ensures r.0.None? ==> r.1 == s
    ensures r.0.Some? ==> |r.0.value| > 0 && Avoids(r.0.value, {':', '/', '?', '#'})
  {
    var k := IndexOfAny(s, {':', '/', '?', '#'});
    if 0 < k < |s| && s[k] == ':' then
      assert s == s[..k] + ":" + s[k + 1..];
      (Some(s[..k]), s[k + 1..])
    else (None, s)
  }

  function AuthoritySplit(s: string): (r: (Option<string>, string))
    ensures r.0.Some? ==> s == "//" + r.0.value + r.1
    ensures r.0.None? ==> r.1 == s
    ensures r.0.Some? ==> Avoids(r.0.value, {'/', '?', '#'})
    ensures r.0.Some? ==> |r.1| == 0 || r.1[0] in {'/', '?', '#'}
  {
    if |s| >= 2 && s[0] == '/' && s[1] == '/' then
      var a := IndexOfAny(s[2..], {'/', '?', '#'});
      assert s == "//" + s[2..][..a] + s[2 + a..];
      (Some(s[2..][..a]), s[2 + a..])
    else (None, s)
  }

  function PathSplit(s: string): (r: (string, string))
    ensures s == r.0 + r.1
    ensures Avoids(r.0, {'?', '#'})
    ensures |r.1| == 0 || r.1[0] in {'?', '#'}
  {
    var p := IndexOfAny(s, {'?', '#'});
    assert s == s[..p] + s[p..];
    (s[..p], s[p..])
  }

  function QuerySplit(s: string): (r: (Option<string>, string))
    ensures r.0.Some? ==> s == "?" + r.0.value + r.1
    ensures r.0.None? ==> r.1 == s
    ensures r.0.Some? ==> Avoids(r.0.value, {'#'})
    ensures r.0.Some? ==> |r.1| == 0 || r.1[0] == '#'
  {
    if |s| > 0 && s[0] == '?' then
      var q := IndexOfAny(s[1..], {'#'});
      assert s == "?" + s[1..][..q] + s[1 + q..];
      (Some(s[1..][..q]), s[1 + q..])
    else (None, s)
  }

  function FragmentSplit(s: string): (r: (Option<string>, string))
    ensures r.0.Some? ==> s == "#" + r.0.value + r.1
    ensures r.0.None? ==> r.1 == s
    ensures r.0.Some? ==> NoLineTerminator(r.0.value)
    ensures r.0.Some? ==> |r.1| == 0 || IsLineTerminator(r.1[0])
  {
    if |s| > 0 && s[0] == '#' then
      var f := IndexOfAny(s[1..], LineTerminators);
      assert s == "#" + s[1..][..f] + s[1 + f..];
      (Some(s[1..][..f]), s[1 + f..])
    else (None, s)
  }

  /** The match of the Appendix B expression against `s` (it always matches, from
      index 0), with the text left after it. */
  function MatchRest(s: string): (RawMatch, string) {
    var sc := SchemeSplit(s);
    var au := AuthoritySplit(sc.1);
    var pa := PathSplit(au.1);
    var qu := QuerySplit(pa.1);
    var fr := FragmentSplit(qu.1);
    (RawMatch(sc.0, au.0, pa.0, qu.0, fr.0), fr.1)
  }

  /** `str.match(parser)`: the groups of the match. */
  function Match(s: string): (m: RawMatch)
    ensures m.scheme.Some? ==> |m.scheme.value| > 0 && Avoids(m.scheme.value, {':', '/', '?', '#'})
    ensures m.authority.Some? ==> Avoids(m.authority.value, {'/', '?', '#'})
    ensures Avoids(m.path, {'?', '#'})
    ensures m.query.Some? ==> Avoids(m.query.value, {'#'})
    ensures m.fragment.Some? ==> NoLineTerminator(m.fragment.value)
  {
    MatchRest(s).0
  }

  /** The match consumes a prefix of `s`. */
  lemma MatchConsumesPrefix(s: string)
    ensures Recompose(Match(s)) + MatchRest(s).1 == s
  {
    var sc := SchemeSplit(s);
    var au := AuthoritySplit(sc.1);
    var pa := PathSplit(au.1);
    var qu := QuerySplit(pa.1);
    var fr := FragmentSplit(qu.1);
    SchemePieces(s);
    AuthorityPieces(sc.1);
    QueryPieces(pa.1);
    FragmentPieces(qu.1);
    Assoc5(Tagged(sc.0, "", ":"), Tagged(au.0, "//", ""), pa.0,
           Tagged(qu.0, "?", ""), Tagged(fr.0, "#", ""), fr.1);
  }

  lemma SchemePieces(s: string)
    ensures s == Tagged(SchemeSplit(s).0, "", ":") + SchemeSplit(s).1
  {
    var r := SchemeSplit(s);
    if r.0.Some? { assert s == r.0.value + ":" + r.1; }
  }

  lemma AuthorityPieces(s: string)
    ensures s == Tagged(AuthoritySplit(s).0, "//", "") + AuthoritySplit(s).1
  {
    var r := AuthoritySplit(s);
    if r.0.Some? { assert s == "//" + r.0.value + r.1; }
  }

  lemma QueryPieces(s: string)
    ensures s == Tagged(QuerySplit(s).0, "?", "") + QuerySplit(s).1
  {
    var r := QuerySplit(s);
    if r.0.Some? { assert s == "?" + r.0.value + r.1; }
  }

  lemma FragmentPieces(s: string)
    ensures s == Tagged(FragmentSplit(s).0, "#", "") + FragmentSplit(s).1
  {
    var r := FragmentSplit(s);
    if r.0.Some? { assert s == "#" + r.0.value + r.1; }
  }

  /** What the match leaves, if anything, starts with a line terminator that
      ended the fragment (the only group stopping at one). */
  lemma MatchLeavesLineTerminator(s: string)
    ensures |MatchRest(s).1| == 0 || IsLineTerminator(s[|s| - |MatchRest(s).1|])
  {
    var sc := SchemeSplit(s);
    var au := AuthoritySplit(sc.1);
    var pa := PathSplit(au.1);
    var r5 := MatchRest(s).1;
    RestAfterPath(pa.1);
    SchemePieces(s);
    AuthorityPieces(sc.1);
    SuffixOfConcat(Tagged(sc.0, "", ":"), sc.1);
    SuffixOfConcat(Tagged(au.0, "//", ""), au.1);
    SuffixOfConcat(pa.0, pa.1);
    SuffixTrans(pa.1, au.1, sc.1);
    SuffixTrans(pa.1, sc.1, s);
    if |r5| > 0 {
      SuffixTrans(r5, pa.1, s);
    }
  }

  lemma SuffixOfConcat(a: string, b: string)
    ensures Suffix(b, a + b)
  {
  }

  /** `t` is what is left of `s` after some prefix. */
  predicate Suffix(t: string, s: string) {
    |t| <= |s| && t == s[|s| - |t|..]
  }

  lemma SuffixTrans(a: string, b: string, c: string)
    requires Suffix(a, b) && Suffix(b, c)
    ensures Suffix(a, c)
  {
    assert c[|c| - |b|..][|b| - |a|..] == c[|c| - |a|..];
  }

  lemma Assoc5(a: string, b: string, c: string, d: string, e: string, f: string)
    ensures a + b + c + d + e + f == a + (b + (c + (d + (e + f))))
  {
  }

  /** After the path group, the query and fragment groups leave only text that
      starts with a line terminator. */
  lemma RestAfterPath(r3: string)
    requires |r3| == 0 || r3[0] in {'?', '#'}
    ensures var r5 := FragmentSplit(QuerySplit(r3).1).1;
      |r5| == 0 || (IsLineTerminator(r5[0]) && Suffix(r5, r3))
  {
    var r4 := QuerySplit(r3).1;
    var r5 := FragmentSplit(r4).1;
    QueryPieces(r3);
    FragmentPieces(r4);
    SuffixOfConcat(Tagged(QuerySplit(r3).0, "?", ""), r4);
    SuffixOfConcat(Tagged(FragmentSplit(r4).0, "#", ""), r5);
    SuffixTrans(r5, r4, r3);
  }

  /** On a string with no line terminator the groups rebuild the whole string. */
  lemma MatchRecomposes(s: string)
    requires NoLineTerminator(s)
    ensures Recompose(Match(s)) == s
  {
    MatchConsumesPrefix(s);
    MatchLeavesLineTerminator(s);
  }

  function OrNull(g: Option<string>): (r: Option<string>)
    ensures r.Some? ==> |r.value| > 0 && g == r
    ensures r.None? ==> g.None? || g == Some("")
  {
    if g.Some? && |g.value| > 0 then g else None
  }

  /** `new URI(str)`: a falsy `str` is treated as the empty string. */
  function ParseUri(str: Option<string>): (u: Uri)
    ensures u.scheme.Some? ==> |u.scheme.value| > 0
    ensures u.authority.Some? ==> |u.authority.value| > 0
    ensures u.path.Some? ==> |u.path.value| > 0
    ensures u.query.Some? ==> |u.query.value| > 0
    ensures u.fragment.Some? ==> |u.fragment.value| > 0
  {
    var m := Match(str.GetOr(""));
    Uri(OrNull(m.scheme), OrNull(m.authority),
        if |m.path| > 0 then Some(m.path) else None,
        OrNull(m.query), OrNull(m.fragment))
  }

  /** An example: every component of a full URL lands in its own field. */
  lemma ParseUriExample()
    ensures ParseUri(Some("https://x/a.png?v=1#top"))
            == Uri(Some("https"), Some("x"), Some("/a.png"), Some("v=1"), Some("top"))
  {
    var s := "https://x/a.png?v=1#top";
    SchemeExample();
    AuthorityExample();
    PathExample();
    QueryExample();
    FragmentExample();
    assert Match(s) == RawMatch(Some("https"), Some("x"), "/a.png", Some("v=1"), Some("top"));
  }

  /** `IndexOfAny` finds the first index holding one of `cs`. */
  lemma IndexOfAnyAt(s: string, cs: set<char>, k: nat)
    requires k <= |s| && (k < |s| ==> s[k] in cs)
    requires forall j :: 0 <= j < k ==> s[j] !in cs
    ensures IndexOfAny(s, cs) == k
  {
  }

  lemma SchemeExample()
    ensures SchemeSplit("https://x/a.png?v=1#top") == (Some("https"), "//x/a.png?v=1#top")
  {
    assert "https://x/a.png?v=1#top" == "https" + ":" + "//x/a.png?v=1#top";
    SchemeSplitOf("https", "//x/a.png?v=1#top");
  }

  /** A scheme followed by `:` is split off again. */
  lemma SchemeSplitOf(scheme: string, rest: string)
    requires |scheme| > 0 && Avoids(scheme, {':', '/', '?', '#'})
    ensures SchemeSplit(scheme + ":" + rest) == (Some(scheme), rest)
  {
    var s := scheme + ":" + rest;
    var k := |scheme|;
    assert s[k] == ':';
    IndexOfAnyAt(s, {':', '/', '?', '#'}, k);
    assert s[..k] == scheme && s[k + 1..] == rest;
  }

  lemma AuthorityExample()
    ensures AuthoritySplit("//x/a.png?v=1#top") == (Some("x"), "/a.png?v=1#top")
  {
    var s := "//x/a.png?v=1#top";
    IndexOfAnyAt(s[2..], {'/', '?', '#'}, 1);
    assert s[2..][..1] == "x" && s[3..] == "/a.png?v=1#top";
  }

  lemma PathExample()
    ensures PathSplit("/a.png?v=1#top") == ("/a.png", "?v=1#top")
  {
    var s := "/a.png?v=1#top";
    IndexOfAnyAt(s, {'?', '#'}, 6);
    assert s[..6] == "/a.png" && s[6..] == "?v=1#top";
  }

  lemma QueryExample()
    ensures QuerySplit("?v=1#top") == (Some("v=1"), "#top")
  {
    var s := "?v=1#top";
    IndexOfAnyAt(s[1..], {'#'}, 3);
    assert s[1..][..3] == "v=1" && s[4..] == "#top";
  }

  lemma FragmentExample()
    ensures FragmentSplit("#top") == (Some("top"), "")
  {
    var s := "#top";
    IndexOfAnyAt(s[1..], LineTerminators, 3);
    assert s[1..][..3] == "top" && s[4..] == "";
  }
}
