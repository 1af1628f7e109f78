# imgcache.js, modelled in Dafny

imgcache.js caches remote images on the device's file system. It downloads a
URL into a cache folder under a name made from the SHA-1 of the URL and the
URL's extension. It then points `<img>` elements, or CSS backgrounds, at the
local copy. It reverts them on request. It keeps the total size of the
downloads in `localStorage`, and it clears the folder on `init` once that
total passes a limit. This project models its deterministic core:

- **Keys and string helpers** (`lib/imgcache.js`):
  - `sanitizeURI`: strip one pair of enclosing quotes, then `encodeURI`;
  - the RFC 2396 Appendix B `URI` splitter;
  - `URIGetFileName` and `fileGetExtension`;
  - `getCachedFileName`, `appendPaths` and `getCachedFilePath`;
  - `getBackgroundImage` and `getBackgroundImageURL`;
  - `String` / `parseInt` as the size counter uses them.
  - Modules: `JsStrings`, `NumberText`, `UriEncoding`, `UriParts`,
    `CacheKeys`, `BackgroundUrl`.
- **The cache store** (`lib/imgcache.js`):
  - the loaded flags, the folder as a map from file name to size, and
    `localStorage` holding the counter under `'imgcache:' + localCacheFolder`;
  - every `ImgCache` operation as a function from the old state to the new
    state and the callback the caller sees (`CacheStore`);
  - the lemmas about them (`CacheStoreLemmas`);
  - the `ImgCache` class whose methods update those fields in place
    (`ImgCacheLib`).
- **Element substitution**: an element is its attribute map and its
  background (`Dom`). `setNewImgPath` / `useOnlineFile`,
  `setBackgroundImagePath` / `useBackgroundOnlineFile` and `loadCachedFile`'s
  hit and miss branches are in `CacheStore`.
- **The legacy `js/imgcache.js`**: a cache that records which file names
  exist, with its own path join and background regex (`LegacyCache`,
  `LegacyCacheLemmas`, class `LegacyImgCache.ImgCache`).
- **`lib/imgcache-promise.js`**:
  - the `initPerformed` gate and the promise each wrapper returns, as
    functions (`PromiseWrapper`);
  - the lemmas, including overlapping calls (`PromiseWrapperLemmas`);
  - the class that flips the flag in place (`ImgCachePromiseLib`).
- **`js/qimgcache.js`**:
  - the memoised `initPromise` and the deferreds of `cacheFile` /
    `getCachedFile` (`QWrapper`, `QWrapperLemmas`);
  - the classes `QImgCacheLib.QImgCache` and `QImgCacheLib.Deferred`, which
    settle and notify in place.

How the outside world is modelled:

- Callbacks become a `Reply`:
  - `Ok`: the success callback;
  - `Err`: the error callback;
  - `Throws`: an exception in the caller's stack;
  - `Uncaught`: an exception inside an asynchronous callback;
  - `NoReply`: no callback at all.
- Promises become a `Settlement` (`Pending`, `Resolved`, `Rejected`).
- Outcomes the code cannot control are parameters:
  - file-system and folder outcomes, e.g. `InitOutcome`;
  - downloads (`Transfer`, with the size the metadata reports, if any);
  - the result of reading a file as a data URI (`read`);
  - progress events.
- The hash (`overridables.hash`, SHA-1 by default) and the entry-to-URL
  conversion are opaque functions in the configuration. Lemmas that need
  SHA-1's shape (40 lower-case hex digits) take it as the hypothesis
  `Sha1Shaped`.

Asynchronous callbacks are run to completion one call at a time. The
overlapping of calls that matters to the promise wrappers is modelled
separately, as event sequences (`PromiseWrapper.GateStep`,
`QWrapper.QGateStep`).

Where the code and its documentation disagree, the model follows the code:

- the counter key is `'imgcache:' + localCacheFolder`;
- the promise wrapper's `isCached` rejects on a miss.

The Q wrapper calls `getCachedFile` and passes a progress callback to
`cacheFile`, which only the `lib/imgcache.js` cache offers, so it is modelled
over that cache.

## Model

| member | source | states |
|---|---|---|
| JsStrings.LastIndexOf | lib/imgcache.js:109 | `lastIndexOf` gives the last index holding the character, or -1 when there is none |
| JsStrings.IndexOfAny | lib/imgcache.js:95 | the first index holding one of the characters (the length when none does): where a regex group of excluded characters stops |
| JsStrings.BeforeFirst | lib/imgcache.js:132 | `split(c)[0]` is the longest prefix without `c`, cut just before the first `c` |
| JsStrings.AfterLast | lib/imgcache.js:133 | `split(c).pop()` is the longest suffix without `c`, starting just after the last `c` |
| JsStrings.ToLower | lib/imgcache.js:113 | lower-casing keeps the length |
| JsStrings.LowerKeepsSeparators | lib/imgcache.js:113 | lower-casing neither creates nor removes a non-letter such as `/` |
| JsStrings.RemoveChars | lib/imgcache.js:515 | the global `replace` of a character class leaves only characters of the input outside the class, and changes nothing when none is in the class |
| JsStrings.RemoveCharsAppend | lib/imgcache.js:515 | deleting characters distributes over concatenation |
| NumberText.Add | lib/imgcache.js:731 | adding a size to the counter keeps NaN as NaN and otherwise adds exactly |
| NumberText.Decimal | lib/imgcache.js:349 | `String(n)` of a non-negative integer is a non-empty string of digits |
| NumberText.DigitPrefix | lib/imgcache.js:706 | `parseInt` reads the longest run of leading digits |
| NumberText.TrimStart | lib/imgcache.js:706 | `parseInt` skips leading white space, and only that |
| NumberText.Negate | lib/imgcache.js:706 | a leading `-` negates the value read; NaN stays NaN |
| NumberText.LeadingDigits | lib/imgcache.js:706 | a number is read exactly when the text starts with a digit, and it is never negative |
| NumberText.ParseInt | lib/imgcache.js:706 | `parseInt(s, 10)` gives a number only when `s` holds a digit |
| NumberText.DigitsValueDecimal | lib/imgcache.js:349 | the digits `String` writes for `n` read back as `n` |
| NumberText.ParseIntNumberToString | lib/imgcache.js:346-351 | round trip: what `setCurrentSize` writes, `getCurrentSize` reads back, NaN included |
| NumberText.ParseIntNegativeString | lib/imgcache.js:706 | a negative counter written by `String` reads back unchanged |
| NumberText.ParseIntNaN | lib/imgcache.js:706 | a counter written as `"NaN"` reads back as NaN |
| NumberText.ParseIntDigits | lib/imgcache.js:706 | a string of digits parses as its decimal value |
| NumberText.ParseIntNegative | lib/imgcache.js:706 | `-` followed by digits parses as minus their value |
| UriEncoding.HexDigit | lib/imgcache.js:79 | `encodeURI` writes upper-case hex digits |
| UriEncoding.HexValue | lib/imgcache.js:79 | a hex digit of either case has a value below 16, and nothing else has one |
| UriEncoding.HexValueOfDigit | lib/imgcache.js:79 | the hex digit written for `d` reads back as `d` |
| UriEncoding.Utf8 | lib/imgcache.js:79 | a code point becomes one to four octets, each below 256, as in section 15.1.3 of ECMA-262 5.1 |
| UriEncoding.EscapeAll | lib/imgcache.js:79 | each octet becomes three characters |
| UriEncoding.OctetAtEscapeAll | lib/imgcache.js:79 | the k-th `%XY` escape of an octet string reads back as the k-th octet |
| UriEncoding.DecodeEscaped1 | lib/imgcache.js:79 | the escape of a one-octet character decodes to that character |
| UriEncoding.DecodeEscaped2 | lib/imgcache.js:79 | the escapes of a two-octet character decode to that character |
| UriEncoding.DecodeEscaped3 | lib/imgcache.js:79 | the escapes of a three-octet character decode to that character |
| UriEncoding.DecodeEscaped4 | lib/imgcache.js:79 | the escapes of a four-octet character decode to that character |
| UriEncoding.DecodeEscapedChar | lib/imgcache.js:79 | the escapes `encodeURI` writes for any character decode to that character |
| UriEncoding.UnescapeEncodeURI | lib/imgcache.js:79 | round trip: percent-decoding gives back exactly the string `encodeURI` was given |
| UriEncoding.EncodeURIInjective | lib/imgcache.js:79 | two strings with the same `encodeURI` are equal |
| UriEncoding.EncodeURIChars | lib/imgcache.js:79 | `encodeURI` writes only ASCII: unescaped characters, `%` and hex digits |
| UriEncoding.EncodeURIIdentity | lib/imgcache.js:79 | `encodeURI` leaves a string of unescaped characters as it is |
| UriParts.SchemeSplit | lib/imgcache.js:95 | the scheme group is a non-empty run without `:/?#` that is followed by `:`; without one nothing is consumed |
| UriParts.AuthoritySplit | lib/imgcache.js:95 | the authority follows `//` and runs up to the next `/`, `?`, `#` or the end |
| UriParts.PathSplit | lib/imgcache.js:95 | the path runs up to the first `?` or `#` |
| UriParts.QuerySplit | lib/imgcache.js:95 | the query follows `?` and runs up to `#` |
| UriParts.FragmentSplit | lib/imgcache.js:95 | the fragment follows `#` and runs up to the first line terminator |
| UriParts.Match | lib/imgcache.js:95-96 | each group of the RFC 2396 Appendix B regex holds none of the characters it excludes |
| UriParts.MatchConsumesPrefix | lib/imgcache.js:95-96 | the groups, with their delimiters, spell out a prefix of the input |
| UriParts.MatchLeavesLineTerminator | lib/imgcache.js:95-96 | the match stops only at the end or at a line terminator |
| UriParts.MatchRecomposes | lib/imgcache.js:95-96 | on a one-line string the groups rebuild the whole string |
| UriParts.OrNull | lib/imgcache.js:97-101 | `result[i] \|\| null` turns a missing or empty group into null |
| UriParts.ParseUri | lib/imgcache.js:92-102 | no field of a `URI` object is an empty string: each is null or non-empty |
| UriParts.ParseUriExample | lib/imgcache.js:92-102 | `https://x/a.png?v=1#top` splits into its five components |
| UriParts.SchemeSplitOf | lib/imgcache.js:95 | a valid scheme followed by `:` is split off exactly |
| CacheKeys.StripEnclosingQuotes | lib/imgcache.js:76-78 | one pair of enclosing `"` is removed when the string has at least 2 characters and both ends are quotes; otherwise the string is unchanged |
| CacheKeys.SanitizeRoundTrip | lib/imgcache.js:73-89 | percent-decoding a sanitized URL gives the URL back without its enclosing quotes |
| CacheKeys.SanitizeInjective | lib/imgcache.js:73-89 | two unquoted URLs sanitize alike only when they are equal |
| CacheKeys.SanitizeIgnoresQuotes | lib/imgcache.js:76-78 | `"x"` and `x` get the same key |
| CacheKeys.SanitizedChars | lib/imgcache.js:73-89 | a sanitized URL is ASCII made of the characters `encodeURI` may write |
| CacheKeys.SanitizeTwiceDiffers | lib/imgcache.js:73-89 | sanitizing is not idempotent: `a b` becomes `a%20b`, then `a%2520b` |
| CacheKeys.URIGetFileName | lib/imgcache.js:104-114 | undefined exactly for an empty path or when the only `/` is at index 0; otherwise the lower-cased text after the last `/` (the whole path when there is none) |
| CacheKeys.FileGetExtension | lib/imgcache.js:126-137 | the extension is at most 4 characters, has no `.` or `?`, and is the text after the last `.` before the first `?` whenever it is non-empty |
| CacheKeys.ExtensionOfDotless | lib/imgcache.js:126-137 | a dot-less name of 1 to 4 characters is its own extension |
| CacheKeys.ExtensionTooLong | lib/imgcache.js:134 | a last segment over 4 characters gives no extension |
| CacheKeys.ExtensionOfDotted | lib/imgcache.js:126-137 | `stem.ext` has extension `ext` when `ext` has 1 to 4 characters |
| CacheKeys.QueryDropped | lib/imgcache.js:126-137 | the query string after the first `?` plays no part in the extension |
| CacheKeys.ExtensionBeforeQuery | lib/imgcache.js:126-137 | `stem.ext?query` has extension `ext` when `ext` has 1 to 4 characters |
| CacheKeys.ExtensionQueryKey | lib/imgcache.js:363-371 | `path/stem.ext?query` is stored as `<hash>.ext`, whatever the case of the query |
| CacheKeys.GetCachedFileName | lib/imgcache.js:363-371 | undefined exactly for an empty source; otherwise the hash, followed by `.` and the extension when there is one |
| CacheKeys.CachedFileNameShape | lib/imgcache.js:363-371 | with SHA-1 the name is 40 hex digits, then `.ext` or nothing |
| CacheKeys.SameFileNameSameHash | lib/imgcache.js:363-371 | two sources share a file name only if their hashes collide |
| CacheKeys.AppendPaths | lib/imgcache.js:139-147 | joins with one `/` unless one side already brings it; an empty first part gives a leading `/` unless the second part starts with one |
| CacheKeys.AppendPathsOneSlash | lib/imgcache.js:139-147 | exactly one `/` separates the two parts when neither brings one |
| CacheKeys.AppendPathsNoDoubleSlash | lib/imgcache.js:139-147 | no `/` is added when either part brings one |
| CacheKeys.GetCachedFilePath | lib/imgcache.js:353-355 | an empty source gives the folder joined with the empty name |
| CacheKeys.CachedFilePathSplits | lib/imgcache.js:353-355 | the path is the folder, `/`, then the file name |
| CacheKeys.CachedFilePathInjective | lib/imgcache.js:353-355 | two sources share a path only if they share a file name |
| CacheKeys.FileNameOfLastSegment | lib/imgcache.js:104-114 | the file name of `path/seg` is `seg` lower-cased |
| CacheKeys.FileNameWithExtension | lib/imgcache.js:363-371 | the name is the hash plus `.ext` exactly when the extension is non-empty |
| CacheKeys.DotlessSegmentKey | lib/imgcache.js:363-371 | a dot-less last segment of at most 4 characters becomes the extension: `https://x/a` is stored as `<hash>.a` |
| CacheKeys.KeyWithExtension | lib/imgcache.js:363-371 | a source with extension `ext` is stored as `<hash>.ext` |
| CacheKeys.ExtensionSegmentKey | lib/imgcache.js:363-371 | `path/stem.ext` is stored as `<hash>.ext` |
| BackgroundUrl.ParenCapture | lib/imgcache.js:514 | the capture of `\((.+)\)` is non-empty, on one line, and ends before a `)` |
| BackgroundUrl.GetBackgroundImage | lib/imgcache.js:289-299 | a truthy `data-old-background` wins as `url(<it>)`; otherwise the style's background image |
| BackgroundUrl.GetBackgroundImageURL | lib/imgcache.js:508-516 | undefined exactly for an empty property; the URL it returns holds no quote |
| BackgroundUrl.UrlOfWrapped | lib/imgcache.js:513-514 | `url(x)` yields `x` |
| BackgroundUrl.UrlOfQuoted | lib/imgcache.js:508-516 | `url("x")` yields `x` |
| BackgroundUrl.QuotesRemoved | lib/imgcache.js:515 | the quotes around `"x"` are deleted |
| BackgroundUrl.OldBackgroundWins | lib/imgcache.js:508-516 | with `data-old-background` set, the URL is that attribute without its quotes |
| BackgroundUrl.NoUrlNoMatch | lib/imgcache.js:514 | a value without `(`, such as `none`, does not match, so `[1]` of the null result throws |
| BackgroundUrl.LegacyKeepsQuotes | js/imgcache.js:412-413 | the legacy `\((.+)\)` keeps the quotes: `url("x")` yields `"x"` |
| Callbacks.Promised | lib/imgcache-promise.js:45-52 | a promise wrapped around success and error callbacks resolves exactly on success with its value, rejects on error or a throw, and stays pending otherwise |
| Dom.ElementView.Get | lib/imgcache.js:282-288 | `getAttribute` gives the value exactly when the attribute is present |
| Dom.ElementView.Set | lib/imgcache.js:373-377 | setting an attribute changes that attribute only |
| Dom.ElementView.Remove | lib/imgcache.js:848 | removing an attribute removes that attribute only |
| Dom.ElementView.SetBackground | lib/imgcache.js:300-306 | setting the background image changes the style only |
| Dom.Element.constructor | lib/imgcache.js:282-306 | an element starts with the given attributes and style |
| Dom.Element.Assign | lib/imgcache.js:373-377 | the element's attributes and style are overwritten in place |
| CacheStore.GetCurrentSize | lib/imgcache.js:700-710 | the counter is 0 when storage is unavailable or the key is missing |
| CacheStore.SetCurrentSize | lib/imgcache.js:346-351 | with storage available, the value written is the value read back; without it nothing changes; only the counter key changes |
| CacheStore.Plus | lib/imgcache.js:731 | `+` on numbers: NaN absorbs, otherwise the exact sum |
| CacheStore.Find | lib/imgcache.js:774-799 | the lookup finds a file exactly when the source is non-empty and its cached file name is in the folder, and it returns that name |
| CacheStore.CacheFile | lib/imgcache.js:714-769 | before `init`, or with no source, nothing happens and no callback runs; success needs a download; the loaded flags stay as they were |
| CacheStore.StoreDownload | lib/imgcache.js:728-735 | the downloaded file is recorded at its size; the counter moves only when the metadata reports a size |
| CacheStore.GetCachedFile | lib/imgcache.js:774-799 | before `init` no callback runs; a hit answers the sanitized source and its file, which is in the folder; a miss answers the source as given and null |
| CacheStore.IsCached | lib/imgcache.js:831-835 | answers exactly when `getCachedFile` answers, with true exactly on a hit |
| CacheStore.GetCachedFileURL | lib/imgcache.js:802-812 | a hit gives the URL of the file; a miss calls the error callback |
| CacheStore.RemoveFile | lib/imgcache.js:895-911 | succeeds exactly when the folder is open, the file of the sanitized source exists and removal succeeds; then that file, and only it, is gone; otherwise nothing changes |
| CacheStore.CreateCacheDir | lib/imgcache.js:379-426 | success exactly when the folder opens, which sets `dirEntry` and `ready`; failure leaves the state |
| CacheStore.ClearCache | lib/imgcache.js:875-893 | before `init` no callback runs; a failed removal keeps everything; a removal empties the folder and resets the counter to 0; success needs the folder recreated |
| CacheStore.Init | lib/imgcache.js:616-694 | succeeds exactly when the file system and the folder open, even when eviction fails; it clears the folder only when the counter is over the limit |
| CacheStore.SetNewImgPath | lib/imgcache.js:373-377 | `src` becomes the new URL and `data-old-src` the old one; nothing else changes |
| CacheStore.SetBackgroundImagePath | lib/imgcache.js:577-581 | the background becomes `url("new")` and `data-old-background` the old URL; no other attribute changes |
| CacheStore.UseOnlineFile | lib/imgcache.js:839-849 | `src` is restored from a truthy `data-old-src` and that attribute is removed; nothing else changes; nothing happens before `init` or without an element |
| CacheStore.UseBackgroundOnlineFile | lib/imgcache.js:962-972 | the background is restored as `url("old")` from a truthy `data-old-background` and that attribute is removed |
| CacheStore.LoadCachedFile | lib/imgcache.js:541-575 | before `init` or without an element nothing happens; a miss calls the error callback and leaves the element; success needs a found file and a bound setter, and with file URLs a found file and a bound setter always succeed |
| CacheStore.PointAtFile | lib/imgcache.js:553-567 | a failed lookup is the error callback and leaves the element; with a found file, a bound setter succeeds exactly when file URLs are used or the data-URI read gives a non-empty result, an empty or failed read is the error callback, and the unbound setter throws whenever it is reached |
| CacheStore.UseCachedFile | lib/imgcache.js:853-861 | without an element it throws; anything but success leaves the element; success means the element's sanitized `src` has a file |
| CacheStore.UseCachedFileWithSource | lib/imgcache.js:864-872 | the same with the source given: success means the sanitized source has a file |
| CacheStore.CacheBackground | lib/imgcache.js:920-934 | caching a background is `cacheFile` of its URL; without a URL the state is unchanged |
| CacheStore.UseCachedBackground | lib/imgcache.js:936-949 | as written it never succeeds and always leaves the element: a miss is an error, a hit throws (see Findings) |
| CacheStore.UseCachedBackgroundCorrected | lib/imgcache.js:936-949 | corrected, success means the sanitized background URL has a file; otherwise the element is left |
| CacheStore.UseCachedBackgroundWithSource | lib/imgcache.js:951-957 | as written it never succeeds and leaves the element |
| CacheStore.IsBackgroundCached | lib/imgcache.js:913-918 | `isCached` of the background URL; a value that does not match the regex throws |
| CacheStoreLemmas.CacheFileThenFound | lib/imgcache.js:714-799 | after a successful `cacheFile(u)`, the file is stored at its size and `getCachedFile(u)` / `isCached(u)` find it |
| CacheStoreLemmas.LookupHit | lib/imgcache.js:774-799 | a source whose file is in the folder is a hit for `getCachedFile` and `isCached` |
| CacheStoreLemmas.CacheFileDir | lib/imgcache.js:714-769 | `cacheFile` changes the folder only on a download, by writing the file of the source |
| CacheStoreLemmas.CacheFileOverwrites | lib/imgcache.js:714-769 | `cacheFile` adds or overwrites at most one file and keeps every other |
| CacheStoreLemmas.RemoveThenMissing | lib/imgcache.js:895-911 | after `removeFile(u)` succeeds, `getCachedFile(u)` misses with `(u, null)` and `isCached(u)` is false |
| CacheStoreLemmas.ApplyKeeps | lib/imgcache.js:714-911 | an operation that spares a file keeps it and keeps the cache loaded |
| CacheStoreLemmas.StaysCached | lib/imgcache.js:714-911 | a cached source stays cached through any operations that neither remove its file nor clear the folder |
| CacheStoreLemmas.KeptThrough | lib/imgcache.js:714-911 | a file survives every operation that spares it, and the cache stays loaded |
| CacheStoreLemmas.ClearThenMissing | lib/imgcache.js:875-893 | after a clearing that removed the folder every source is a miss |
| CacheStoreLemmas.CacheFileCounts | lib/imgcache.js:728-735 | a download adds its reported size to the counter |
| CacheStoreLemmas.ApplyKeepsCounterWellFormed | lib/imgcache.js:346-351 | every operation leaves in storage only what `setCurrentSize` wrote |
| CacheStoreLemmas.NaNCounterSticks | lib/imgcache.js:731 | a NaN counter stays NaN through downloads |
| CacheStoreLemmas.NaNNeverEvicts | lib/imgcache.js:624-635 | a NaN counter is never over the limit, so `init` never clears |
| CacheStoreLemmas.ClearResetsCounter | lib/imgcache.js:884 | clearing resets the counter to 0 |
| CacheStoreLemmas.EvictionIsStrict | lib/imgcache.js:627 | exactly the limit in bytes does not evict; one byte more does |
| CacheStoreLemmas.NoLimitNoEviction | lib/imgcache.js:625 | with `cacheClearSize` 0 `init` never clears |
| CacheStoreLemmas.InitEvicts | lib/imgcache.js:624-635 | over the limit, `init` still succeeds, and it empties the folder when removal succeeds |
| CacheStoreLemmas.InitEvictsExample | lib/imgcache.js:624-635 | 1.5 MB cached against a 1 MB limit is cleared |
| CacheStoreLemmas.SwapAndRevert | lib/imgcache.js:541-575 | on a hit `useCachedFile` points `src` at the file and records the sanitized source, whatever URL `getUrl` gives; `useOnlineFile` then puts the sanitized source back and removes the record |
| CacheStoreLemmas.ImgHit | lib/imgcache.js:541-575 | on a hit with file URLs `useCachedFile` points `src` at the file's URL, records the sanitized source and calls success |
| CacheStoreLemmas.RevertImg | lib/imgcache.js:839-861 | `useOnlineFile` after `setNewImgPath` restores the recorded source as `src`, drops the record and leaves the rest of the element alone |
| CacheStoreLemmas.ImgFileUrlHit | lib/imgcache.js:561-566 | on a hit without data URIs the image setter gets the file URL, the empty one included, and the success callback runs |
| CacheStoreLemmas.SwapAndRevertExact | lib/imgcache.js:839-861 | when sanitizing changes nothing, the revert gives back the original `src` |
| CacheStoreLemmas.SanitizeIdentity | lib/imgcache.js:73-89 | sanitizing is the identity when encoding is skipped or the URL needs no escaping |
| CacheStoreLemmas.UseOnlineFileIdempotent | lib/imgcache.js:839-849 | `useOnlineFile` twice is `useOnlineFile` once |
| CacheStoreLemmas.UseBackgroundOnlineFileIdempotent | lib/imgcache.js:962-972 | `useBackgroundOnlineFile` twice is once |
| CacheStoreLemmas.MissLeavesElement | lib/imgcache.js:569-573 | a miss calls the error callback and leaves the element; nothing is downloaded |
| CacheStoreLemmas.EmptyReadLeavesElement | lib/imgcache.js:554-559 | with data URIs a failed or empty read is not a success and leaves the element |
| CacheStoreLemmas.EmptyReadLoad | lib/imgcache.js:554-559 | with data URIs a failed or empty read is the error callback |
| CacheStoreLemmas.SpaceIsEncoded | lib/imgcache.js:79 | a URL with a space is changed by sanitizing |
| CacheStoreLemmas.CorrectedBackgroundHit | lib/imgcache.js:936-949 | corrected, a hit points the background at the file and records the sanitized URL |
| CacheStoreLemmas.BackgroundFileUrlHit | lib/imgcache.js:561-581 | a bound background setter on a hit without data URIs sets `url("<file URL>")`, whatever that URL is, and succeeds |
| CacheStoreLemmas.CacheBackgroundStores | lib/imgcache.js:920-934 | `cacheBackground` stores the file of the background URL |
| CacheStoreLemmas.BackgroundLookupMisses | lib/imgcache.js:920-949 | as written, a background URL with a space is cached and then missed by `useCachedBackground` |
| CacheStoreLemmas.BackgroundHitThrows | lib/imgcache.js:920-949 | as written, a cached background that the lookup finds throws in the unbound setter |
| CacheStoreLemmas.UnboundHit | lib/imgcache.js:936-949 | as written, any hit of `useCachedBackground` without data URIs throws |
| CacheStoreLemmas.UnboundPoint | lib/imgcache.js:577-579 | the unbound setter throws on its first use of `this` |
| CacheStoreLemmas.BackgroundSwapAndRevert | lib/imgcache.js:920-972 | corrected, cache then use then revert: the background points at the file, then back at `url("<sanitized URL>")` |
| CacheStoreLemmas.BackgroundSwapKeepsUrl | lib/imgcache.js:508-516 | after the swap, `getBackgroundImageURL` reads the sanitized URL back from `data-old-background` |
| CacheStoreLemmas.SanitizedNoLineTerminator | lib/imgcache.js:73-89 | a sanitized URL has no line terminator, so the background regex captures it whole |
| ImgCacheLib.ImgCache.constructor | lib/imgcache.js:589-608 | a new cache is not loaded, has an empty folder and has not probed storage |
| ImgCacheLib.ImgCache.IsImgCacheLoaded | lib/imgcache.js:320-326 | loaded exactly when `filesystem` and `dirEntry` are set |
| ImgCacheLib.ImgCache.HasLocalStorage | lib/imgcache.js:328-344 | answers whether storage works and memoises only a positive answer |
| ImgCacheLib.ImgCache.SetCurrentSize | lib/imgcache.js:346-351 | updates storage in place as `CacheStore.SetCurrentSize` says |
| ImgCacheLib.ImgCache.GetCurrentSize | lib/imgcache.js:700-710 | changes nothing and answers `CacheStore.GetCurrentSize` |
| ImgCacheLib.ImgCache.CacheFile | lib/imgcache.js:714-769 | updates the fields and replies as `CacheStore.CacheFile` says |
| ImgCacheLib.ImgCache.StoreDownload | lib/imgcache.js:728-735 | records the file and adds to the counter in place |
| ImgCacheLib.ImgCache.GetCachedFile | lib/imgcache.js:774-799 | changes nothing and replies as `CacheStore.GetCachedFile` |
| ImgCacheLib.ImgCache.IsCached | lib/imgcache.js:831-835 | changes nothing and replies as `CacheStore.IsCached` |
| ImgCacheLib.ImgCache.GetCachedFileURL | lib/imgcache.js:802-812 | changes nothing and replies as `CacheStore.GetCachedFileURL` |
| ImgCacheLib.ImgCache.RemoveFile | lib/imgcache.js:895-911 | removes the file in place as `CacheStore.RemoveFile` says |
| ImgCacheLib.ImgCache.CreateCacheDir | lib/imgcache.js:379-426 | sets `dirEntry` and `ready` in place as `CacheStore.CreateCacheDir` says |
| ImgCacheLib.ImgCache.ClearCache | lib/imgcache.js:875-893 | empties the folder and resets the counter in place as `CacheStore.ClearCache` says |
| ImgCacheLib.ImgCache.Init | lib/imgcache.js:616-694 | opens the file system and folder and evicts in place as `CacheStore.Init` says |
| ImgCacheLib.ImgCache.UseOnlineFile | lib/imgcache.js:839-849 | reverts the element in place as `CacheStore.UseOnlineFile` says |
| ImgCacheLib.ImgCache.UseBackgroundOnlineFile | lib/imgcache.js:962-972 | reverts the background in place as `CacheStore.UseBackgroundOnlineFile` says |
| ImgCacheLib.ImgCache.LoadCachedFile | lib/imgcache.js:541-575 | changes the element in place as `CacheStore.LoadCachedFile` says |
| ImgCacheLib.ImgCache.UseCachedFile | lib/imgcache.js:853-861 | changes the element in place as `CacheStore.UseCachedFile` says |
| ImgCacheLib.ImgCache.UseCachedFileWithSource | lib/imgcache.js:864-872 | changes the element in place as `CacheStore.UseCachedFileWithSource` says |
| ImgCacheLib.ImgCache.CacheBackground | lib/imgcache.js:920-934 | caches the background URL in place as `CacheStore.CacheBackground` says |
| ImgCacheLib.ImgCache.UseCachedBackground | lib/imgcache.js:936-949 | changes the element as `CacheStore.UseCachedBackground` says, i.e. never |
| ImgCacheLib.ImgCache.UseCachedBackgroundWithSource | lib/imgcache.js:951-957 | changes the element as `CacheStore.UseCachedBackgroundWithSource` says, i.e. never |
| ImgCacheLib.ImgCache.IsBackgroundCached | lib/imgcache.js:913-918 | changes nothing and replies as `CacheStore.IsBackgroundCached` |
| LegacyCache.CachedFileName | js/imgcache.js:110-115 | the hash, followed by `.` and the extension when there is one |
| LegacyCache.CachedFilePath | js/imgcache.js:110-115 | the name, prefixed by `root/` only when the root is non-empty, with no slash merging |
| LegacyCache.CreateCacheDir | js/imgcache.js:123-156 | success exactly when the folder opens, which sets `dirEntry` and `ready`; on failure no callback runs |
| LegacyCache.Init | js/imgcache.js:209-247 | success exactly when the file system and folder open; the error callback only when the file system fails; the files are kept |
| LegacyCache.CacheFile | js/imgcache.js:250-290 | without the folder or a source nothing happens; success exactly on a download, which adds the source's file and changes nothing else |
| LegacyCache.IsCached | js/imgcache.js:295-314 | answers `(src, whether its file exists)` once loaded; before that no callback runs |
| LegacyCache.UseOnlineFile | js/imgcache.js:318-326 | restores `src` from a truthy `data-old-src` and removes it; no-op without an element |
| LegacyCache.SetNewImgPath | js/imgcache.js:117-121 | `src` becomes the new URL and `data-old-src` the old one; nothing else changes |
| LegacyCache.UseCachedFile | js/imgcache.js:329-388 | without `src` it throws; anything but success leaves the element; success means the file exists and `data-old-src` holds the old `src` |
| LegacyCache.ClearCache | js/imgcache.js:391-409 | before `init` no callback runs; a failed removal keeps the files; a removal empties them; success needs the folder recreated |
| LegacyCache.CacheBackground | js/imgcache.js:411-416 | `cacheFile` of the `\((.+)\)` capture, quotes kept; no match throws |
| LegacyCache.UseCachedBackground | js/imgcache.js:419-467 | as written, success only without data URIs; anything else leaves the element |
| LegacyCache.UseCachedBackgroundCorrected | js/imgcache.js:419-467 | corrected, success means the file of the captured URL exists |
| LegacyCacheLemmas.NameAgrees | js/imgcache.js:110-115 | the legacy file name equals the lib one |
| LegacyCacheLemmas.PathAgreesWithAppendPaths | js/imgcache.js:110-115 | with a root not ending in `/`, the legacy path equals the lib `appendPaths` join |
| LegacyCacheLemmas.PathKeepsDoubleSlash | js/imgcache.js:110-115 | a root ending in `/` gives `//` |
| LegacyCacheLemmas.PathEndsWithName | js/imgcache.js:110-115 | the path ends with the file name |
| LegacyCacheLemmas.CacheFileThenFound | js/imgcache.js:250-314 | after a successful `cacheFile(u)`, `isCached(u)` answers `(u, true)` |
| LegacyCacheLemmas.StaysCached | js/imgcache.js:250-409 | a cached source stays cached through any operations but a clearing that removes the folder |
| LegacyCacheLemmas.ClearThenMissing | js/imgcache.js:391-409 | after a clearing that removed the folder every source is a miss; on a failed recreation no callback runs |
| LegacyCacheLemmas.InitFolderFailureIsSilent | js/imgcache.js:209-247 | when the folder cannot be opened `init` calls neither callback |
| LegacyCacheLemmas.SwapAndRevertExact | js/imgcache.js:318-388 | `useCachedFile` then `useOnlineFile` gives back the original `src` (no sanitizing in the legacy code) |
| LegacyCacheLemmas.EmptySourceNotRestored | js/imgcache.js:318-326 | an empty original `src` is recorded but not restored, since it is falsy |
| LegacyCacheLemmas.UseOnlineFileIdempotent | js/imgcache.js:318-326 | `useOnlineFile` twice is once |
| LegacyCacheLemmas.UseOnlineFileAgrees | js/imgcache.js:318-326 | once loaded, the legacy and lib `useOnlineFile` agree |
| LegacyCacheLemmas.FailureLeavesElement | js/imgcache.js:357-387 | a miss, or an empty data-URI read, calls the failure callback and leaves `src` |
| LegacyCacheLemmas.BackgroundRoundTrip | js/imgcache.js:411-467 | a background cached by `cacheBackground` is found by `useCachedBackground`, which sets `url(<file URL>)` |
| LegacyCacheLemmas.DataUriBackgroundThrows | js/imgcache.js:440 | as written, with data URIs a hit throws on the undefined `$img` |
| LegacyCacheLemmas.DataUriBackgroundCorrected | js/imgcache.js:419-467 | corrected, with data URIs a hit sets the data URI as the background |
| LegacyCacheLemmas.CorrectedDiffersOnlyOnDataUriHit | js/imgcache.js:419-467 | the correction changes nothing except a non-empty data-URI read of a cached background |
| LegacyImgCache.ImgCache.constructor | js/imgcache.js:17-29 | the global `ImgCache` starts unloaded with the given files |
| LegacyImgCache.ImgCache.CreateCacheDir | js/imgcache.js:123-156 | sets `dirEntry` and `ready` in place as `LegacyCache.CreateCacheDir` says |
| LegacyImgCache.ImgCache.Init | js/imgcache.js:209-247 | sets `filesystem` and opens the folder in place as `LegacyCache.Init` says |
| LegacyImgCache.ImgCache.CacheFile | js/imgcache.js:250-290 | adds the file in place as `LegacyCache.CacheFile` says |
| LegacyImgCache.ImgCache.IsCached | js/imgcache.js:295-314 | changes nothing and answers as `LegacyCache.IsCached` |
| LegacyImgCache.ImgCache.UseOnlineFile | js/imgcache.js:318-326 | reverts the element in place as `LegacyCache.UseOnlineFile` says |
| LegacyImgCache.ImgCache.UseCachedFile | js/imgcache.js:329-388 | changes the element in place as `LegacyCache.UseCachedFile` says |
| LegacyImgCache.ImgCache.ClearCache | js/imgcache.js:391-409 | empties the files in place as `LegacyCache.ClearCache` says |
| LegacyImgCache.ImgCache.CacheBackground | js/imgcache.js:411-416 | caches the background in place as `LegacyCache.CacheBackground` says |
| LegacyImgCache.ImgCache.UseCachedBackground | js/imgcache.js:419-467 | changes the element in place as `LegacyCache.UseCachedBackground` says |
| PromiseWrapper.InitCheck | lib/imgcache-promise.js:29-43 | once `initPerformed` is set it resolves without calling `ImgCache.init`; otherwise it resolves exactly when that init succeeds, and the flag is set exactly on success |
| PromiseWrapper.CacheFile | lib/imgcache-promise.js:45-52 | rejects when `init` fails; after `init`, resolves with the file URL exactly on a download of a non-empty URL, and stays pending for an empty one |
| PromiseWrapper.EntrySettlement | lib/imgcache-promise.js:58-67 | resolves with `file_entry` exactly when it is non-null |
| PromiseWrapper.GetCachedFile | lib/imgcache-promise.js:54-70 | after `init` it never stays pending, and resolves exactly when the sanitized URL's file is in the folder, with that file |
| PromiseWrapper.IsCached | lib/imgcache-promise.js:72-74 | `isCached` is `getCachedFile` |
| PromiseWrapper.GetCachedFileURL | lib/imgcache-promise.js:76-92 | as written, resolves with the file URL on a hit and rejects only on a failed `init` or a throw (see Findings) |
| PromiseWrapper.URLSettlement | lib/imgcache-promise.js:76-92 | resolves with the URL on success, rejects on an error or a throw |
| PromiseWrapper.GetCachedFileURLCorrected | lib/imgcache-promise.js:76-92 | corrected, resolves only with the URL of the file of the sanitized URL |
| PromiseWrapper.UseCachedFile | lib/imgcache-promise.js:95-102 | after `init` it settles; it resolves only when the element's sanitized `src` has a file, and otherwise leaves the element |
| PromiseWrapper.UseCachedFileWithSource | lib/imgcache-promise.js:105-112 | resolves only when the given URL has a file; otherwise the element is left |
| PromiseWrapper.UseOnlineFile | lib/imgcache-promise.js:114-119 | resolves exactly when `init` does, after restoring `src` from `data-old-src` |
| PromiseWrapper.ClearCache | lib/imgcache-promise.js:121-128 | after `init` it resolves exactly when removal and recreation succeed, and a removal empties the folder |
| PromiseWrapper.IsBackgroundCached | lib/imgcache-promise.js:130-137 | as written, resolves with the source that `isBackgroundCached` answers, not with the boolean |
| PromiseWrapper.IsBackgroundCachedCorrected | lib/imgcache-promise.js:130-137 | corrected, resolves with whether the background is cached |
| PromiseWrapper.CacheBackground | lib/imgcache-promise.js:139-146 | is `cacheFile` of the background URL; rejects when there is none |
| PromiseWrapper.UseCachedBackground | lib/imgcache-promise.js:148-155 | never resolves and leaves the element, as `useCachedBackground` never succeeds |
| PromiseWrapper.UseBackgroundOnlineFile | lib/imgcache-promise.js:157-162 | resolves exactly when `init` does, after restoring the background |
| PromiseWrapper.RemoveFile | lib/imgcache-promise.js:164-171 | after `init` it settles, resolving exactly when the file existed and was removed, after which it is missing |
| PromiseWrapper.GateStep | lib/imgcache-promise.js:28-40 | a call starts one more `ImgCache.init` exactly while `initPerformed` is false; the flag is set only by a successful init |
| PromiseWrapperLemmas.InitRetriesUntilSuccess | lib/imgcache-promise.js:29-40 | calls in sequence call `ImgCache.init` up to and including the first success, and never after |
| PromiseWrapperLemmas.EveryCallStartsInitUntilSuccess | lib/imgcache-promise.js:28-40 | while no init has succeeded, every call starts its own, even with others in flight |
| PromiseWrapperLemmas.OncePerformedStaysPerformed | lib/imgcache-promise.js:33-38 | once set, the flag stays set and no call starts an init |
| PromiseWrapperLemmas.OverlappingCallsStartTwoInits | lib/imgcache-promise.js:28-40 | two calls before the first init settles start two inits |
| PromiseWrapperLemmas.CacheThenGetCachedFile | lib/imgcache-promise.js:45-74 | a URL cached through the wrapper is found by `getCachedFile` and `isCached` |
| PromiseWrapperLemmas.IsCachedRejectsOnMiss | lib/imgcache-promise.js:72-74 | `isCached` rejects on a miss instead of resolving with false |
| PromiseWrapperLemmas.ClearThenGetCachedFileRejects | lib/imgcache-promise.js:54-70 | after a clearing that removed the folder, `getCachedFile` rejects |
| PromiseWrapperLemmas.RemoveThenGetCachedFileRejects | lib/imgcache-promise.js:54-70 | after `removeFile` resolves, `getCachedFile` of the URL rejects |
| PromiseWrapperLemmas.SwapAndRevert | lib/imgcache-promise.js:95-119 | `useCachedFile` then `useOnlineFile` resolve and put the sanitized source back |
| PromiseWrapperLemmas.GetCachedFileURLMissNeverSettles | lib/imgcache-promise.js:76-92 | as written, a miss leaves the promise pending for ever |
| PromiseWrapperLemmas.GetCachedFileURLCorrectedSettles | lib/imgcache-promise.js:76-92 | corrected, it always settles, rejects on a miss, and agrees with the original wherever that settles |
| PromiseWrapperLemmas.IsBackgroundCachedIgnoresCache | lib/imgcache-promise.js:130-137 | as written, the promise resolves with the same value on a hit and a miss |
| PromiseWrapperLemmas.IsBackgroundCachedCorrectedAnswers | lib/imgcache-promise.js:130-137 | corrected, it resolves with true exactly when the background's file is in the folder |
| ImgCachePromiseLib.ImgCachePromise.constructor | lib/imgcache-promise.js:28 | the wrapper starts with `initPerformed` false |
| ImgCachePromiseLib.ImgCachePromise.InitCheck | lib/imgcache-promise.js:29-43 | flips `initPerformed` in place and settles as `PromiseWrapper.InitCheck` says |
| ImgCachePromiseLib.ImgCachePromise.CacheFile | lib/imgcache-promise.js:45-52 | updates the state and settles as `PromiseWrapper.CacheFile` says |
| ImgCachePromiseLib.ImgCachePromise.GetCachedFile | lib/imgcache-promise.js:54-70 | updates the state and settles as `PromiseWrapper.GetCachedFile` says |
| ImgCachePromiseLib.ImgCachePromise.IsCached | lib/imgcache-promise.js:72-74 | updates the state and settles as `PromiseWrapper.IsCached` says |
| ImgCachePromiseLib.ImgCachePromise.GetCachedFileURL | lib/imgcache-promise.js:76-92 | updates the state and settles as `PromiseWrapper.GetCachedFileURL` says |
| ImgCachePromiseLib.ImgCachePromise.UseCachedFile | lib/imgcache-promise.js:95-102 | changes the element and settles as `PromiseWrapper.UseCachedFile` says |
| ImgCachePromiseLib.ImgCachePromise.UseCachedFileWithSource | lib/imgcache-promise.js:105-112 | changes the element and settles as `PromiseWrapper.UseCachedFileWithSource` says |
| ImgCachePromiseLib.ImgCachePromise.UseOnlineFile | lib/imgcache-promise.js:114-119 | reverts the element and settles as `PromiseWrapper.UseOnlineFile` says |
| ImgCachePromiseLib.ImgCachePromise.ClearCache | lib/imgcache-promise.js:121-128 | clears and settles as `PromiseWrapper.ClearCache` says |
| ImgCachePromiseLib.ImgCachePromise.IsBackgroundCached | lib/imgcache-promise.js:130-137 | settles as `PromiseWrapper.IsBackgroundCached` says |
| ImgCachePromiseLib.ImgCachePromise.CacheBackground | lib/imgcache-promise.js:139-146 | caches and settles as `PromiseWrapper.CacheBackground` says |
| ImgCachePromiseLib.ImgCachePromise.UseCachedBackground | lib/imgcache-promise.js:148-155 | settles as `PromiseWrapper.UseCachedBackground` says |
| ImgCachePromiseLib.ImgCachePromise.UseBackgroundOnlineFile | lib/imgcache-promise.js:157-162 | reverts the background and settles as `PromiseWrapper.UseBackgroundOnlineFile` says |
| ImgCachePromiseLib.ImgCachePromise.RemoveFile | lib/imgcache-promise.js:164-171 | removes and settles as `PromiseWrapper.RemoveFile` says |
| QWrapper.Init | js/qimgcache.js:11-21 | only the first call runs `ImgCache.init`; `initPromise` is then fulfilled exactly when it succeeded; later calls change nothing |
| QWrapper.Settled | js/qimgcache.js:23-40 | the deferred resolves on the success callback, rejects on the error callback, and stays pending when the handler throws |
| QWrapper.CacheFile | js/qimgcache.js:23-40 | a rejected `initPromise` rejects without calling the cache; otherwise it resolves exactly on a download of a non-empty URL, and the deferred is notified of every progress event |
| QWrapper.EntrySettled | js/qimgcache.js:47-53 | resolves with `file_entry` exactly when it is non-null, and rejects on null |
| QWrapper.GetCachedFile | js/qimgcache.js:42-59 | a rejected `initPromise` rejects; once it is fulfilled the deferred settles, resolving exactly when the sanitized URL's file is in the folder |
| QWrapper.QGateStep | js/qimgcache.js:11-21 | only a call while `initPromise` is null starts `ImgCache.init`; a settled `initPromise` never changes |
| QWrapperLemmas.CallsMatchKept | js/qimgcache.js:11-21 | any sequence of events keeps `ImgCache.init` called once exactly when `initPromise` exists |
| QWrapperLemmas.AtMostOneInit | js/qimgcache.js:11-21 | however calls interleave, `ImgCache.init` runs at most once |
| QWrapperLemmas.InitOutcomeIsFinal | js/qimgcache.js:16-18 | a fulfilled or rejected `initPromise` stays so, with no retry |
| QWrapperLemmas.InitRunsOnce | js/qimgcache.js:11-21 | calls in sequence run `ImgCache.init` once, with the first call's outcome |
| QWrapperLemmas.FailureIsSticky | js/qimgcache.js:11-57 | after a failed `init`, a later `getCachedFile` rejects even when `init` would now succeed |
| QWrapperLemmas.CacheThenGetCachedFile | js/qimgcache.js:23-59 | a URL cached through the wrapper is then found through it, and all progress was forwarded |
| QImgCacheLib.Deferred.constructor | js/qimgcache.js:24 | a new deferred is pending with no progress |
| QImgCacheLib.Deferred.Resolve | js/qimgcache.js:29 | resolves a pending deferred; a settled one is unchanged |
| QImgCacheLib.Deferred.Reject | js/qimgcache.js:31 | rejects a pending deferred; a settled one is unchanged |
| QImgCacheLib.Deferred.Notify | js/qimgcache.js:33 | a pending deferred records the event; a settled one ignores it |
| QImgCacheLib.NotifyAll | js/qimgcache.js:32-34 | the deferred records every progress event of the download, in order |
| QImgCacheLib.SettleDownload | js/qimgcache.js:28-31 | the callbacks of `cacheFile` settle the deferred as `QWrapper.Settled` says |
| QImgCacheLib.SettleLookup | js/qimgcache.js:47-53 | the callback of `getCachedFile` settles the deferred as `QWrapper.EntrySettled` says |
| QImgCacheLib.QImgCache.constructor | js/qimgcache.js:10 | `initPromise` starts null |
| QImgCacheLib.QImgCache.Init | js/qimgcache.js:11-21 | assigns `initPromise` once, in place, as `QWrapper.Init` says |
| QImgCacheLib.QImgCache.CacheFile | js/qimgcache.js:23-40 | updates the state and settles and notifies its deferred as `QWrapper.CacheFile` says |
| QImgCacheLib.QImgCache.GetCachedFile | js/qimgcache.js:42-59 | updates the state and settles its deferred as `QWrapper.GetCachedFile` says |

## Left out

- The download itself (XHR, Cordova `FileTransfer`, `lib/imgcache.js:430-506`, `js/imgcache.js:158-202`) is network I/O. It is a parameter: a download with its size (reported by the metadata or not), or a failure.
- File-system and quota negotiation in `init` and `createCacheDir` are foreign storage APIs. They are reduced to success or failure of the file system and of the folder. This covers `requestFileSystem`, the `.nomedia` file and the iOS backup metadata.
- Platform detection and the entry-URL shims (`isCordova*`, `EntryToURL`, `EntryGetURL`, `EntryGetPath`, `getCordovaStorageType`) are environment probes. The file URL is the opaque `getUrl` of the configuration.
- The jQuery-versus-DOM branching of `DomHelpers` and the `ImgCacheReady` event are UI plumbing. An element is its attribute map and background.
- SHA-1 (`lib/imgcache.js:46`, `js/imgcache.js:104`) is 32-bit arithmetic. The hash is an opaque deterministic function, and SHA-1's output shape is a hypothesis where a lemma needs it.
- `getBase64DataFromEntry` / `FileReader` is file I/O. The result of reading a file is a parameter, where an empty or failed read takes the error path.
- `getMetadata` updates the counter asynchronously. Concurrent updates are run one after the other, so interleaved read-modify-write races are not modelled.
- `URIGetPath` (`lib/imgcache.js:117-123`, `js/imgcache.js:80-86`) is not called by any other operation, and it calls `URI` without `new`.
- `getCachedFileFullPath`, `getCachedFileBase64Data` and `getCacheFolderURI` only format entry URLs or read files, so they fall under the two items above.
- Logging is a side channel with no effect on the cache.
- Promise and Q library mechanics are out of scope. A promise is its final settlement, and the order in which `then` handlers run is not modelled.
- Strings are sequences of Unicode scalar values rather than UTF-16 units. Lengths differ only for characters outside the Basic Multilingual Plane, and a lone surrogate (where `encodeURI` would throw) cannot occur.
- JsStrings.ToLower: lowercases ASCII letters only, because `toLowerCase` of other characters needs Unicode case tables. The file names are exact only when URI encoding is on, because a sanitized URL is then ASCII. With `skipURIencoding` set, and in the legacy cache, which never sanitizes, a non-ASCII upper-case letter in the extension is kept as it is. `https://x/a.PNĞ` gets the extension `pnĞ` here, where JavaScript gives `pnğ`.
- BackgroundUrl.GetBackgroundImageURL: a value with no `url(...)` match is the `NoMatch` result rather than a TypeError from `null[1]`; the callers that matter (`CacheStore.IsBackgroundCached`) map it to `Throws`.
- LegacyCache.Init: the legacy `init` also asks for a storage quota on Chrome. That is one more success or failure of the file system.
- CacheStore.CacheFile: the counter and the directory are updated together when the download succeeds, as the source does once its `getMetadata` callback has run.

## Findings

| source | as written | input that shows it | evidently intended | confidence | as-written member | corrected member |
|---|---|---|---|---|---|---|
| lib/imgcache.js:936-949 | `useCachedBackground` looks up the background URL as read from the style, while `cacheBackground` stores it under the sanitized URL | background `url("a b.png")`, URI encoding on: stored under the hash of `a%20b.png`, looked up under the hash of `a b.png` | look up the sanitized URL, as `useCachedFile` does | not executed | CacheStoreLemmas.BackgroundLookupMisses | CacheStore.UseCachedBackgroundCorrected |
| lib/imgcache.js:948, 956 | `this.private.setBackgroundImagePath` is passed as a bare function, so in strict mode its `this` is undefined and `this.domHelpers` throws on every hit | a cached background found by the lookup, with data URIs off | call the setter bound to `Private` | not executed | CacheStoreLemmas.BackgroundHitThrows | CacheStoreLemmas.CorrectedBackgroundHit |
| lib/imgcache-promise.js:76-92 | `getCachedFileURL` is given only the success callback, and `ImgCache.getCachedFileURL` reports a miss through the error callback | any URL not in the cache | reject on a miss | not executed | PromiseWrapperLemmas.GetCachedFileURLMissNeverSettles | PromiseWrapperLemmas.GetCachedFileURLCorrectedSettles |
| lib/imgcache-promise.js:130-137 | `resolve` is passed as the response callback, so the promise resolves with its first argument, the source, and drops the boolean | any background, cached or not, with encoding skipped | resolve with whether it is cached | not executed | PromiseWrapperLemmas.IsBackgroundCachedIgnoresCache | PromiseWrapperLemmas.IsBackgroundCachedCorrectedAnswers |
| js/imgcache.js:440 | with data URIs, a hit calls `_setNewImgPath($img, …)` on the undeclared `$img`, which throws a ReferenceError | `useDataURI` on, a cached background, a non-empty read | set the data URI as the background of `$div` | not executed | LegacyCacheLemmas.DataUriBackgroundThrows | LegacyCacheLemmas.DataUriBackgroundCorrected |
