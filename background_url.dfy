/**
 * Reading an image URL out of a `background-image` value. The current library
 * uses `/url\s?\((.+)\)/` and then deletes every quote (`getBackgroundImageURL`);
 * the legacy one uses `/\((.+)\)/` and keeps quotes (`cacheBackground`,
 * `useCachedBackground`). `.` matches anything but a line terminator; `exec`
 * takes the leftmost match, and `.+` is greedy, so the capture runs to the last
 * `)` before the first line terminator.
 */
module BackgroundUrl {
  import opened Wrappers
  import opened JsStrings
  import opened Dom

  const LineTerminators: set<char> := {'\n', '\r', '\U{2028}', '\U{2029}'}
  const Quotes: set<char> := {'\'', '"'}

  /** The capture of `\((.+)\)` when its `(` is the one at index `p`. */
  function ParenCapture(s: string, p: nat): (r: Option<string>)
    requires p < |s| && s[p] == '('
    ensures r.Some? ==> (|r.value| > 0 && p + 1 + |r.value| < |s|
                         && r.value == s[p + 1..p + 1 + |r.value|] && s[p + 1 + |r.value|] == ')')
    ensures r.Some? ==> forall i :: 0 <= i < |r.value| ==> !IsLineTerminator(r.value[i])
  {
    var e := p + 1 + IndexOfAny(s[p + 1..], LineTerminators);
    if e < p + 2 then None
    else
      var k := LastIndexOf(s[p + 2..e], ')');
      if k < 0 then None
      else
        assert forall i :: p + 1 <= i < e ==> s[i] == s[p + 1..][i - p - 1];
        Some(s[p + 1..p + 2 + k])
  }

  /** `/url\s?\((.+)\)/` tried at index `i` alone. */
  function UrlMatchAt(s: string, i: nat): Option<string>
    requires i <= |s|
  {
    if i + 3 <= |s| && s[i..i + 3] == "url" then
      var q := i + 3;
      if q + 1 < |s| && IsWhiteSpace(s[q]) && s[q + 1] == '(' then ParenCapture(s, q + 1)
      else if q < |s| && s[q] == '(' then ParenCapture(s, q)
      else None
    else None
  }

  /** `/url\s?\((.+)\)/.exec(s)[1]` searching from index `i`; `None` for no match. */
  function UrlExec(s: string, i: nat): Option<string>
    requires i <= |s|
    decreases |s| - i
  {
    if UrlMatchAt(s, i).Some? then UrlMatchAt(s, i)
    else if i < |s| then UrlExec(s, i + 1)
    else None
  }

  /** `/\((.+)\)/.exec(s)[1]` searching from index `i`; `None` for no match. */
  function ParenExec(s: string, i: nat): Option<string>
    requires i <= |s|
    decreases |s| - i
  {
    if i < |s| && s[i] == '(' && ParenCapture(s, i).Some? then ParenCapture(s, i)
    else if i < |s| then ParenExec(s, i + 1)
    else None
  }

  /** What `getBackgroundImageURL` yields: undefined for an empty property, a
      TypeError when the expression does not match (`exec` returns null and the
      code reads `[1]` of it), otherwise the URL. */
  datatype BackgroundUrlResult = NoProperty | NoMatch | Url(url: string)

  /** `DomHelpers.getBackgroundImage`: `url(<data-old-background>)` when that
      attribute is set, otherwise the element's `background-image`. */
  function GetBackgroundImage(v: ElementView): (r: string)
    ensures v.Truthy(OldBackgroundAttr) ==> r == "url(" + v.attrs[OldBackgroundAttr] + ")"
    ensures !v.Truthy(OldBackgroundAttr) ==> r == v.backgroundImage
  {
    if v.Truthy(OldBackgroundAttr) then "url(" + v.attrs[OldBackgroundAttr] + ")"
    else v.backgroundImage
  }

  /** `Private.getBackgroundImageURL`. */
  function GetBackgroundImageURL(v: ElementView): (r: BackgroundUrlResult)
    ensures r.NoProperty? <==> GetBackgroundImage(v) == ""
    ensures r.Url? ==> forall c :: c in r.url ==> c !in Quotes
  {
    var prop := GetBackgroundImage(v);
    if prop == "" then NoProperty
    else
      match UrlExec(prop, 0)
      case None => NoMatch
      case Some(src) => Url(RemoveChars(src, Quotes))
  }

  /** The legacy `/\((.+)\)/.exec(background-image)[1]`. */
  function LegacyBackgroundURL(backgroundImage: string): Option<string> {
    ParenExec(backgroundImage, 0)
  }

  /** The capture starting at the `(` at index `p` of `prefix + "(" + x + ")"` is
      all of `x` when `x` is non-empty and holds no line terminator. */
  lemma ParenCaptureWhole(prefix: string, x: string)
    requires |x| > 0 && forall i :: 0 <= i < |x| ==> !IsLineTerminator(x[i])
    ensures var s := prefix + "(" + x + ")";
      ParenCapture(s, |prefix|) == Some(x)
  {
    var s := prefix + "(" + x + ")";
    var p := |prefix|;
    var t := s[p + 1..];
    assert t == x + ")";
    assert IndexOfAny(t, LineTerminators) == |t| by {
      assert forall j :: 0 <= j < |t| ==> t[j] !in LineTerminators;
    }
    var u := s[p + 2..|s|];
    assert u[|u| - 1] == ')';
    assert LastIndexOf(u, ')') == |u| - 1;
    assert s[p + 1..p + 2 + |u| - 1] == x;
  }

  /** `url(x)` captures all of `x`, for any non-empty `x` without a line
      terminator: the leftmost match starts at index 0 and the greedy capture
      runs to the final `)`. */
  lemma UrlOfWrapped(x: string)
    requires |x| > 0 && forall i :: 0 <= i < |x| ==> !IsLineTerminator(x[i])
    ensures UrlExec("url(" + x + ")", 0) == Some(x)
  {
    var s := "url(" + x + ")";
    UrlPrefix(x);
    ParenCaptureWhole("url", x);
    assert UrlMatchAt(s, 0) == ParenCapture(s, 3);
  }

  /** `url(x)` is `url` and `(` followed by `x)`. */
  lemma UrlPrefix(x: string)
    ensures var s := "url(" + x + ")";
      s == "url" + "(" + x + ")" && s[0..3] == "url" && s[3] == '(' && !IsWhiteSpace(s[3])
  {
    var s := "url(" + x + ")";
    assert "url" + "(" == "url(";
    assert s[0] == 'u' && s[1] == 'r' && s[2] == 'l' && s[3] == '(';
    assert s[0..3] == "url";
  }

  /** A `url("x")` value, as a style serializes it, yields `x`. */
  lemma UrlOfQuoted(x: string)
    requires forall i :: 0 <= i < |x| ==> !IsLineTerminator(x[i]) && x[i] !in Quotes
    ensures GetBackgroundImageURL(ElementView(map[], "url(\"" + x + "\")")) == Url(x)
  {
    var q := "\"" + x + "\"";
    var s := "url(" + q + ")";
    assert "url(\"" + x + "\")" == s;
    var v := ElementView(map[], s);
    assert GetBackgroundImage(v) == s;
    UrlOfWrapped(q);
    QuotesRemoved(x);
  }

  /** Deleting the quotes of `"x"` leaves `x` when `x` holds none. */
  lemma QuotesRemoved(x: string)
    requires forall i :: 0 <= i < |x| ==> x[i] !in Quotes
    ensures RemoveChars("\"" + x + "\"", Quotes) == x
  {
    assert "\"" + x + "\"" == "\"" + (x + "\"");
    RemoveCharsAppend("\"", x + "\"", Quotes);
    RemoveCharsAppend(x, "\"", Quotes);
  }

  /** The legacy expression keeps the quotes: `url("x")` yields `"x"`. */
  lemma LegacyKeepsQuotes(x: string)
    requires forall i :: 0 <= i < |x| ==> !IsLineTerminator(x[i])
    ensures LegacyBackgroundURL("url(\"" + x + "\")") == Some("\"" + x + "\"")
  {
    var q := "\"" + x + "\"";
    var s := "url(" + q + ")";
    assert "url(\"" + x + "\")" == s;
    ParenCaptureWhole("url", q);
    assert s == "url" + "(" + q + ")";
    assert s[0] != '(' && s[1] != '(' && s[2] != '(';
    assert ParenExec(s, 3) == Some(q);
    assert ParenExec(s, 2) == Some(q);
    assert ParenExec(s, 1) == Some(q);
  }

  /** An element that remembers its original background in `data-old-background`
      yields that URL, quotes deleted, whatever its current style is. */
  lemma OldBackgroundWins(v: ElementView)
    requires v.Truthy(OldBackgroundAttr)
    requires forall i :: 0 <= i < |v.attrs[OldBackgroundAttr]| ==> !IsLineTerminator(v.attrs[OldBackgroundAttr][i])
    ensures GetBackgroundImageURL(v) == Url(RemoveChars(v.attrs[OldBackgroundAttr], Quotes))
  {
    UrlOfWrapped(v.attrs[OldBackgroundAttr]);
  }

  /** A value with no `url` followed by `(` at all, such as `none`, does not match. */
  lemma {:induction false} NoUrlNoMatch(s: string, i: nat)
    requires i <= |s|
    requires forall j :: 0 <= j < |s| ==> s[j] != '('
    ensures UrlExec(s, i).None?
    decreases |s| - i
  {
    if i < |s| {
      NoUrlNoMatch(s, i + 1);
    }
  }
}
