/**
 * How the cache names its files: the URL is sanitized (`sanitizeURI`), hashed
 * (`overridables.hash`, SHA-1 by default) and given the extension of its last
 * path segment (`URIGetFileName`, `fileGetExtension`); the file lives in the
 * cache folder (`appendPaths`, `getCachedFilePath`).
 */
module CacheKeys {
  import opened Wrappers
  import opened JsStrings
  import opened UriEncoding

  /** The hash a cache is configured with, as a function from string to string. */
  type Hash = string -> string

  predicate IsLowerHex(c: char) {
    '0' <= c <= '9' || 'a' <= c <= 'f'
  }

  /** The shape of the default hash's output: 40 lower-case hexadecimal digits
      (a SHA-1 digest written out). */
  ghost predicate Sha1Shaped(hash: Hash) {
    forall s :: |hash(s)| == 40 && forall i :: 0 <= i < |hash(s)| ==> IsLowerHex(hash(s)[i])
  }

  /** Removes one pair of enclosing double quotes (a string of at least two
      characters that starts and ends with `"`). */
  function StripEnclosingQuotes(uri: string): (r: string)
    ensures |uri| >= 2 && uri[0] == '"' && uri[|uri| - 1] == '"' ==> uri == "\"" + r + "\""
    ensures !(|uri| >= 2 && uri[0] == '"' && uri[|uri| - 1] == '"') ==> r == uri
  {
    if |uri| >= 2 && uri[0] == '"' && uri[|uri| - 1] == '"' then uri[1..|uri| - 1] else uri
  }

  /** `Helpers.sanitizeURI`: the identity when `skipURIencoding` is set, otherwise
      `encodeURI` of the URL with one pair of enclosing double quotes removed. */
  function SanitizeURI(skipURIencoding: bool, uri: string): string {
    if skipURIencoding then uri else EncodeURI(StripEnclosingQuotes(uri))
  }

  /** Sanitizing loses nothing but the enclosing quotes: percent-decoding its
      output gives back the unquoted URL. */
  lemma SanitizeRoundTrip(uri: string)
    ensures Unescape(SanitizeURI(false, uri)) == Some(StripEnclosingQuotes(uri))
    ensures !(|uri| >= 2 && uri[0] == '"' && uri[|uri| - 1] == '"') ==> Unescape(SanitizeURI(false, uri)) == Some(uri)
  {
    UnescapeEncodeURI(StripEnclosingQuotes(uri));
  }

  /** Two URLs without enclosing quotes get the same sanitized form only if they are equal. */
  lemma SanitizeInjective(a: string, b: string)
    requires !(|a| >= 2 && a[0] == '"' && a[|a| - 1] == '"')
    requires !(|b| >= 2 && b[0] == '"' && b[|b| - 1] == '"')
    requires SanitizeURI(false, a) == SanitizeURI(false, b)
    ensures a == b
  {
    EncodeURIInjective(StripEnclosingQuotes(a), StripEnclosingQuotes(b));
  }

  /** A quoted URL and the same URL without its quotes share one sanitized form,
      hence one cache entry. */
  lemma SanitizeIgnoresQuotes(x: string)
    requires !(|x| >= 2 && x[0] == '"' && x[|x| - 1] == '"')
    ensures SanitizeURI(false, "\"" + x + "\"") == SanitizeURI(false, x)
  {
    var q := "\"" + x + "\"";
    assert q[1..|q| - 1] == x;
  }

  /** The sanitized form is plain ASCII with no double quote: every character is
      one that `encodeURI` leaves alone, `%` or a hex digit. */
  lemma SanitizedChars(uri: string)
    ensures forall i :: 0 <= i < |SanitizeURI(false, uri)| ==>
      EncodedChar(SanitizeURI(false, uri)[i]) && SanitizeURI(false, uri)[i] as int < 128
  {
    EncodeURIChars(StripEnclosingQuotes(uri));
  }

  /** Sanitizing is not idempotent: a URL with a space is encoded once by the
      first pass and its `%` again by the second. */
  lemma SanitizeTwiceDiffers()
    ensures SanitizeURI(false, "a b") == "a%20b"
    ensures SanitizeURI(false, SanitizeURI(false, "a b")) == "a%2520b"
  {
    assert EncodeChar('a') == "a";
    assert EncodeChar(' ') == "%20" by { assert Utf8(32) == [32]; }
    assert EncodeChar('b') == "b";
    assert EncodeURI("a b") == "a" + ("%20" + ("b" + ""));
    assert EncodeChar('%') == "%25" by { assert Utf8(37) == [37]; }
    assert EncodeChar('2') == "2";
    assert EncodeChar('0') == "0";
    assert EncodeURI("a%20b") == "a" + ("%25" + ("2" + ("0" + ("b" + ""))));
  }

  /** `Helpers.URIGetFileName`: the lower-cased text after the last `/`; nothing for
      the empty string or when the only `/` is the first character (`lastIndexOf`
      gives 0, which is falsy), the whole string when there is no `/` at all. */
  function URIGetFileName(fullpath: string): (r: Option<string>)
    ensures r.None? <==> fullpath == "" || (fullpath[0] == '/' && '/' !in fullpath[1..])
    ensures r.Some? ==> (|r.value| <= |fullpath|
                         && r.value == ToLower(fullpath[|fullpath| - |r.value|..]))
    ensures r.Some? ==> '/' !in fullpath[|fullpath| - |r.value|..]
    ensures r.Some? ==> |r.value| == |fullpath| || fullpath[|fullpath| - |r.value| - 1] == '/'
    ensures r.Some? ==> '/' !in r.value
  {
    if fullpath == "" then None
    else
      var idx := LastIndexOf(fullpath, '/');
      if idx == 0 then
        assert forall k :: 0 <= k < |fullpath[1..]| ==> fullpath[1..][k] == fullpath[k + 1];
        None
      else
        AfterLastSlash(fullpath, idx);
        Some(ToLower(fullpath[idx + 1..]))
  }

  /** What follows the last `/` (or all of the path, without one) holds no
      `/`, before or after lower-casing, and a path whose last `/` is not its
      first character does not have a single leading `/`. */
  lemma AfterLastSlash(fullpath: string, idx: int)
    requires fullpath != "" && idx == LastIndexOf(fullpath, '/') && idx != 0
    ensures '/' !in fullpath[idx + 1..] && '/' !in ToLower(fullpath[idx + 1..])
    ensures idx < 0 || fullpath[idx] == '/'
    ensures !(fullpath[0] == '/' && '/' !in fullpath[1..])
  {
    var tail := fullpath[idx + 1..];
    NoSlashAfterLast(fullpath, idx);
    LowerKeepsSeparators(tail, '/');
    if idx > 0 {
      assert fullpath[1..][idx - 1] == '/';
    }
  }

  /** Nothing after the last `/` is a `/`. */
  lemma NoSlashAfterLast(fullpath: string, idx: int)
    requires idx == LastIndexOf(fullpath, '/')
    ensures '/' !in fullpath[idx + 1..]
  {
    var tail := fullpath[idx + 1..];
    forall k | 0 <= k < |tail|
      ensures tail[k] != '/'
    {
      assert tail[k] == fullpath[idx + 1 + k];
    }
  }

  /** `Helpers.fileGetExtension`: the text after the last `.` of the part before
      the first `?`, unless it is empty or longer than four characters. */
  function FileGetExtension(filename: Option<string>): (r: string)
    ensures |r| <= 4 && '.' !in r && '?' !in r
    ensures r != "" ==> (filename.Some?
      && var base := BeforeFirst(filename.value, '?');
         |r| <= |base| && r == base[|base| - |r|..]
         && (|r| == |base| || base[|base| - |r| - 1] == '.'))
    ensures forall c :: c in r ==> filename.Some? && c in filename.value
  {
    if filename.None? || filename.value == "" then ""
    else
      var base := BeforeFirst(filename.value, '?');
      var ext := AfterLast(base, '.');
      assert forall c :: c in ext ==> c in base;
      assert forall c :: c in base ==> c in filename.value;
      if ext == "" || |ext| > 4 then "" else ext
  }

  /** A last segment with no dot and no query, of at most four characters, is taken
      whole as the extension. */
  lemma ExtensionOfDotless(name: string)
    requires 0 < |name| <= 4 && '.' !in name && '?' !in name
    ensures FileGetExtension(Some(name)) == name
  {
    assert BeforeFirst(name, '?') == name;
    assert AfterLast(name, '.') == name;
  }

  /** A segment after the last dot that is longer than four characters gives no
      extension at all. */
  lemma ExtensionTooLong(name: string)
    requires |AfterLast(BeforeFirst(name, '?'), '.')| > 4
    ensures FileGetExtension(Some(name)) == ""
  {
  }

  /** `Private.getCachedFileName`: nothing for an empty source; otherwise the hash of
      the source, followed by `.` and the extension when there is one. */
  function GetCachedFileName(hash: Hash, src: string): (r: Option<string>)
    ensures r.None? <==> src == ""
    ensures r.Some? ==> |hash(src)| <= |r.value| && r.value[..|hash(src)|] == hash(src)
    ensures r.Some? ==> (|r.value| == |hash(src)|
      || (r.value[|hash(src)|] == '.' && r.value[|hash(src)| + 1..] == FileGetExtension(URIGetFileName(src))))
  {
    if src == "" then None
    else
      var h := hash(src);
      var ext := FileGetExtension(URIGetFileName(src));
      var tail := if ext != "" then "." + ext else "";
      ConcatParts(h, tail);
      Some(h + tail)
  }

  lemma ConcatParts(h: string, tail: string)
    ensures (h + tail)[..|h|] == h && (h + tail)[|h|..] == tail
    ensures |tail| > 0 ==> (h + tail)[|h|] == tail[0] && (h + tail)[|h| + 1..] == tail[1..]
  {
  }

  /** With a SHA-1-shaped hash the file name holds no `/`, is at most 45 characters
      long, and starts with the 40-digit hash. */
  lemma CachedFileNameShape(hash: Hash, src: string)
    requires Sha1Shaped(hash) && src != ""
    ensures var name := GetCachedFileName(hash, src).value;
      40 <= |name| <= 45 && name[..40] == hash(src) && '/' !in name
  {
    var h := hash(src);
    var ext := FileGetExtension(URIGetFileName(src));
    var tail := if ext != "" then "." + ext else "";
    assert GetCachedFileName(hash, src).value == h + tail;
    assert '/' !in h by {
      assert forall i :: 0 <= i < |h| ==> IsLowerHex(h[i]);
    }
    assert '/' !in tail;
    NoCharInConcat(h, tail, '/');
  }

  lemma NoCharInConcat(a: string, b: string, c: char)
    requires c !in a && c !in b
    ensures c !in a + b
  {
  }

  /** Two sources that share a file name have colliding hashes. */
  lemma SameFileNameSameHash(hash: Hash, a: string, b: string)
    requires Sha1Shaped(hash) && a != "" && b != ""
    requires GetCachedFileName(hash, a) == GetCachedFileName(hash, b)
    ensures hash(a) == hash(b)
  {
    CachedFileNameShape(hash, a);
    CachedFileNameShape(hash, b);
  }

  /** `Helpers.appendPaths`: joins with one `/` unless the first path is non-empty
      and ends with `/`, or the second starts with `/`; an empty first path
      gives a rooted path. */
  function AppendPaths(path1: string, path2: string): (r: string)
    ensures var sep := if path1 == "" then (if |path2| > 0 && path2[0] == '/' then "" else "/")
                       else if path1[|path1| - 1] == '/' || (|path2| > 0 && path2[0] == '/') then ""
                       else "/";
      r == path1 + sep + path2
  {
    if path1 == "" then
      (if |path2| > 0 && path2[0] == '/' then "" else "/") + path2
    else
      path1 + (if path1[|path1| - 1] == '/' || (|path2| > 0 && path2[0] == '/') then "" else "/") + path2
  }

  /** Exactly one `/` separates the two parts when neither brings its own. */
  lemma AppendPathsOneSlash(path1: string, path2: string)
    requires path1 != "" && path1[|path1| - 1] != '/'
    requires path2 == "" || path2[0] != '/'
    ensures var r := AppendPaths(path1, path2);
      |r| == |path1| + 1 + |path2| && r[..|path1|] == path1 && r[|path1|] == '/'
      && r[|path1| + 1..] == path2
  {
    var r := AppendPaths(path1, path2);
    assert r == path1 + "/" + path2;
  }

  /** No `/` is added when either part already brings one. */
  lemma AppendPathsNoDoubleSlash(path1: string, path2: string)
    requires path1 != ""
    requires path1[|path1| - 1] == '/' || (path2 != "" && path2[0] == '/')
    ensures AppendPaths(path1, path2) == path1 + path2
  {
  }

  /** `Private.getCachedFilePath`: the file name joined to the cache folder; a
      missing name stands for the empty string. */
  function GetCachedFilePath(localCacheFolder: string, hash: Hash, src: string): (r: string)
    ensures src == "" ==> r == AppendPaths(localCacheFolder, "")
  {
    AppendPaths(localCacheFolder, GetCachedFileName(hash, src).GetOr(""))
  }

  /** With a folder name that does not end in `/`, the path is the folder, `/`,
      and the file name; so two sources share a path exactly when they share a
      file name, and looking a file up by path is looking it up by name. */
  lemma CachedFilePathSplits(localCacheFolder: string, hash: Hash, src: string)
    requires Sha1Shaped(hash) && src != ""
    requires localCacheFolder != "" && localCacheFolder[|localCacheFolder| - 1] != '/'
    ensures GetCachedFilePath(localCacheFolder, hash, src)
            == localCacheFolder + "/" + GetCachedFileName(hash, src).value
  {
    CachedFileNameShape(hash, src);
    var name := GetCachedFileName(hash, src).value;
    assert name[0] != '/';
  }

  lemma CachedFilePathInjective(localCacheFolder: string, hash: Hash, a: string, b: string)
    requires Sha1Shaped(hash) && a != "" && b != ""
    requires localCacheFolder != "" && localCacheFolder[|localCacheFolder| - 1] != '/'
    requires GetCachedFilePath(localCacheFolder, hash, a) == GetCachedFilePath(localCacheFolder, hash, b)
    ensures GetCachedFileName(hash, a) == GetCachedFileName(hash, b)
  {
    CachedFilePathSplits(localCacheFolder, hash, a);
    CachedFilePathSplits(localCacheFolder, hash, b);
    var pa := localCacheFolder + "/" + GetCachedFileName(hash, a).value;
    var pb := localCacheFolder + "/" + GetCachedFileName(hash, b).value;
    assert GetCachedFileName(hash, a).value == pa[|localCacheFolder| + 1..];
    assert GetCachedFileName(hash, b).value == pb[|localCacheFolder| + 1..];
  }

  /** `lastIndexOf` finds the last index holding `c`. */
  lemma LastIndexOfAt(s: string, c: char, k: nat)
    requires k < |s| && s[k] == c
    requires forall j :: k < j < |s| ==> s[j] != c
    ensures LastIndexOf(s, c) == k
  {
  }

  /** `ToLower` leaves a string without ASCII upper-case letters as it is. */
  lemma ToLowerIdentity(s: string)
    requires forall i :: 0 <= i < |s| ==> !('A' <= s[i] <= 'Z')
    ensures ToLower(s) == s
  {
  }

  /** The file name of a path that ends in `/` followed by a last segment. */
  lemma FileNameOfLastSegment(path: string, seg: string)
    requires |path| >= 2 && path[|path| - 1] == '/' && '/' !in seg
    ensures URIGetFileName(path + seg) == Some(ToLower(seg))
  {
    var s := path + seg;
    LastIndexOfAt(s, '/', |path| - 1);
    assert s[|path|..] == seg;
  }

  /** The file name, once the extension of the source is known. */
  lemma FileNameWithExtension(hash: Hash, src: string, ext: string)
    requires src != "" && FileGetExtension(URIGetFileName(src)) == ext
    ensures GetCachedFileName(hash, src) == Some(hash(src) + (if ext != "" then "." + ext else ""))
  {
  }

  /** A last segment with no dot, of at most four characters, becomes the
      "extension": `https://x/a` is stored as `<hash>.a`. */
  lemma DotlessSegmentKey(hash: Hash, path: string, seg: string)
    requires |path| >= 2 && path[|path| - 1] == '/'
    requires 0 < |seg| <= 4 && '/' !in seg && '.' !in seg && '?' !in seg
    requires forall i :: 0 <= i < |seg| ==> !('A' <= seg[i] <= 'Z')
    ensures GetCachedFileName(hash, path + seg) == Some(hash(path + seg) + "." + seg)
  {
    var src := path + seg;
    FileNameOfLastSegment(path, seg);
    ToLowerIdentity(seg);
    assert URIGetFileName(src) == Some(seg);
    ExtensionOfDotless(seg);
    KeyWithExtension(hash, src, seg);
  }

  /** The file name when the source has a non-empty extension. */
  lemma KeyWithExtension(hash: Hash, src: string, ext: string)
    requires src != "" && ext != "" && FileGetExtension(URIGetFileName(src)) == ext
    ensures GetCachedFileName(hash, src) == Some(hash(src) + "." + ext)
  {
    FileNameWithExtension(hash, src, ext);
    assert hash(src) + ("." + ext) == hash(src) + "." + ext;
  }

  /** A last segment `stem.ext` with an extension of one to four characters keeps it:
      `https://x/a.png` is stored as `<hash>.png`. */
  lemma ExtensionSegmentKey(hash: Hash, path: string, stem: string, ext: string)
    requires |path| >= 2 && path[|path| - 1] == '/'
    requires 0 < |ext| <= 4 && '.' !in ext
    requires '/' !in stem + "." + ext && '?' !in stem + "." + ext
    requires forall i :: 0 <= i < |stem + "." + ext| ==> !('A' <= (stem + "." + ext)[i] <= 'Z')
    ensures GetCachedFileName(hash, path + (stem + "." + ext)) == Some(hash(path + (stem + "." + ext)) + "." + ext)
  {
    var seg := stem + "." + ext;
    FileNameOfLastSegment(path, seg);
    ToLowerIdentity(seg);
    assert URIGetFileName(path + seg) == Some(seg);
    ExtensionOfDotted(stem, ext);
    KeyWithExtension(hash, path + seg, ext);
  }

  /** The extension of `stem.ext` is `ext` when it has one to four characters. */
  lemma ExtensionOfDotted(stem: string, ext: string)
    requires 0 < |ext| <= 4 && '.' !in ext && '?' !in stem + "." + ext
    ensures FileGetExtension(Some(stem + "." + ext)) == ext
  {
    var seg := stem + "." + ext;
    IndexOfAnyEnd(seg, {'?'});
    assert BeforeFirst(seg, '?') == seg;
    LastIndexOfAt(seg, '.', |stem|);
    assert seg[|stem| + 1..] == ext;
  }

  /** The query string plays no part in the extension: `a.png?v=1` gives what
      `a.png` gives. */
  lemma QueryDropped(base: string, query: string)
    requires '?' !in base
    ensures FileGetExtension(Some(base + "?" + query)) == FileGetExtension(Some(base))
  {
    var name := base + "?" + query;
    IndexOfAnyAt(name, {'?'}, |base|);
    assert BeforeFirst(name, '?') == base;
    IndexOfAnyEnd(base, {'?'});
    assert BeforeFirst(base, '?') == base;
  }

  /** The extension of `stem.ext?query` is `ext` when it has one to four
      characters. */
  lemma ExtensionBeforeQuery(stem: string, ext: string, query: string)
    requires 0 < |ext| <= 4 && '.' !in ext && '?' !in stem + "." + ext
    ensures FileGetExtension(Some(stem + "." + ext + "?" + query)) == ext
  {
    QueryDropped(stem + "." + ext, query);
    ExtensionOfDotted(stem, ext);
  }

  /** A last segment `stem.ext?query` is stored under `<hash>.ext`: the query
      string is cut off before the extension is taken, whatever its case. */
  lemma ExtensionQueryKey(hash: Hash, path: string, stem: string, ext: string, query: string)
    requires |path| >= 2 && path[|path| - 1] == '/'
    requires 0 < |ext| <= 4 && '.' !in ext
    requires '/' !in stem + "." + ext && '?' !in stem + "." + ext && '/' !in query
    requires forall i :: 0 <= i < |stem + "." + ext| ==> !('A' <= (stem + "." + ext)[i] <= 'Z')
    ensures var src := path + (stem + "." + ext + "?" + query);
      GetCachedFileName(hash, src) == Some(hash(src) + "." + ext)
  {
    var seg := stem + "." + ext;
    var full := seg + "?" + query;
    var src := path + full;
    FileNameOfLastSegment(path, full);
    ToLowerIdentity(seg);
    assert ToLower(full) == seg + "?" + ToLower(query) by {
      forall i | 0 <= i < |full| ensures ToLower(full)[i] == (seg + "?" + ToLower(query))[i] {
        if i < |seg| {
          assert ToLower(full)[i] == ToLower(seg)[i];
        } else if i > |seg| {
          assert ToLower(full)[i] == ToLower(query)[i - |seg| - 1];
        }
      }
    }
    QueryDropped(seg, ToLower(query));
    ExtensionOfDotted(stem, ext);
    KeyWithExtension(hash, src, ext);
  }

  lemma IndexOfAnyAt(s: string, cs: set<char>, k: nat)
    requires k < |s| && s[k] in cs && forall j :: 0 <= j < k ==> s[j] !in cs
    ensures IndexOfAny(s, cs) == k
  {
  }

  lemma IndexOfAnyEnd(s: string, cs: set<char>)
    requires forall j :: 0 <= j < |s| ==> s[j] !in cs
    ensures IndexOfAny(s, cs) == |s|
  {
  }
}
