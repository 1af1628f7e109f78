/**
 * What the operations of the cache promise together: a cached URL is found
 * until it is removed or the cache is cleared, the counter adds up what was
 * downloaded, the eviction test of `init`, and the element swaps that
 * `useOnlineFile` / `useBackgroundOnlineFile` undo.
 */
module CacheStoreLemmas {
  import opened Wrappers
  import opened JsStrings
  import opened NumberText
  import opened UriEncoding
  import opened CacheKeys
  import opened Dom
  import opened BackgroundUrl
  import opened Callbacks
  import opened CacheStore

  /** The name a source is stored under. */
  function NameOf(cfg: Config, src: string): Option<string> {
    GetCachedFileName(cfg.hash, SanitizeURI(cfg.skipURIencoding, src))
  }

  // ---------------------------------------------------------------------------
  // The folder

  /** After a successful download of `src`, asking about `src` finds the file. */
  lemma CacheFileThenFound(cfg: Config, st: Store, src: string, size: nat, reported: bool)
    requires Loaded(st) && src != "" && NameOf(cfg, src).Some?
    ensures var after := CacheFile(cfg, st, src, Downloaded(size, reported));
      after.reply == Ok(cfg.toUrl(NameOf(cfg, src).value))
      && after.store.dir[NameOf(cfg, src).value] == size
      && GetCachedFile(cfg, after.store, Some(src))
         == Ok(Lookup(Some(SanitizeURI(cfg.skipURIencoding, src)), NameOf(cfg, src)))
      && IsCached(cfg, after.store, Some(src)) == Ok((Some(SanitizeURI(cfg.skipURIencoding, src)), true))
  {
    var name := NameOf(cfg, src).value;
    var after := CacheFile(cfg, st, src, Downloaded(size, reported));
    CacheFileDir(cfg, st, src, Downloaded(size, reported));
    assert after.store.dir == st.dir[name := size];
    assert after.reply == Ok(cfg.toUrl(name));
    LookupHit(cfg, after.store, src);
  }

  /** A source whose file is in a loaded folder is found: `getCachedFile`
      answers with the sanitized source and the file, `isCached` with true. */
  lemma LookupHit(cfg: Config, st: Store, src: string)
    requires Loaded(st) && NameOf(cfg, src).Some? && NameOf(cfg, src).value in st.dir
    ensures GetCachedFile(cfg, st, Some(src))
            == Ok(Lookup(Some(SanitizeURI(cfg.skipURIencoding, src)), NameOf(cfg, src)))
    ensures IsCached(cfg, st, Some(src)) == Ok((Some(SanitizeURI(cfg.skipURIencoding, src)), true))
  {
    var s := SanitizeURI(cfg.skipURIencoding, src);
    assert s != "";
    assert Find(cfg, st, Some(s)) == NameOf(cfg, src);
  }

  /** The folder after `cacheFile`: the file of `src` is written with the
      downloaded size, and only then. */
  lemma CacheFileDir(cfg: Config, st: Store, src: string, t: Transfer)
    ensures CacheFile(cfg, st, src, t).store.dir
            == (if Loaded(st) && src != "" && NameOf(cfg, src).Some? && t.Downloaded?
                then st.dir[NameOf(cfg, src).value := t.size] else st.dir)
  {
  }

  /** A download overwrites: the folder gains at most the one file of `src`,
      and every other file keeps its size. */
  lemma CacheFileOverwrites(cfg: Config, st: Store, src: string, t: Transfer)
    ensures var d := CacheFile(cfg, st, src, t).store.dir;
      d.Keys <= st.dir.Keys + (if NameOf(cfg, src).Some? then {NameOf(cfg, src).value} else {})
      && |d| <= |st.dir| + 1
      && forall n :: n in st.dir && Some(n) != NameOf(cfg, src) ==> n in d && d[n] == st.dir[n]
  {
    CacheFileDir(cfg, st, src, t);
  }

  /** After `removeFile` succeeds the file is gone and the source is a miss. */
  lemma RemoveThenMissing(cfg: Config, st: Store, src: string)
    requires Loaded(st) && NameOf(cfg, src).Some? && NameOf(cfg, src).value in st.dir
    ensures var after := RemoveFile(cfg, st, src, true);
      after.reply == Ok(())
      && GetCachedFile(cfg, after.store, Some(src)) == Ok(Lookup(Some(src), None))
      && IsCached(cfg, after.store, Some(src)) == Ok((Some(src), false))
  {
    var s := SanitizeURI(cfg.skipURIencoding, src);
    assert s != "";
  }

  /** The operations that can change the folder. */
  datatype Op =
    | CacheFileOp(src: string, t: Transfer)
    | RemoveFileOp(src: string, removeOk: bool)
    | ClearCacheOp(removeOk: bool, recreateOk: bool)
    | InitOp(fsOk: bool, dirOk: bool, removeOk: bool, recreateOk: bool)

  function Apply(cfg: Config, st: Store, op: Op): Store {
    match op
    case CacheFileOp(src, t) => CacheFile(cfg, st, src, t).store
    case RemoveFileOp(src, ok) => RemoveFile(cfg, st, src, ok).store
    case ClearCacheOp(removeOk, recreateOk) => ClearCache(cfg, st, removeOk, recreateOk).store
    case InitOp(fsOk, dirOk, removeOk, recreateOk) => Init(cfg, st, fsOk, dirOk, removeOk, recreateOk).store
  }

  /** The state after the operations, in order. */
  function Run(cfg: Config, st: Store, ops: seq<Op>): Store
    decreases |ops|
  {
    if |ops| == 0 then st else Run(cfg, Apply(cfg, st, ops[0]), ops[1..])
  }

  /** The operation cannot delete the file `name`: it is not a successful removal
      of that file, nor a clearing of the folder (by `clearCache` or by the
      eviction of `init`) whose removal succeeds. */
  predicate Spares(cfg: Config, op: Op, name: string) {
    match op
    case CacheFileOp(_, _) => true
    case RemoveFileOp(src, ok) => !ok || NameOf(cfg, src) != Some(name)
    case ClearCacheOp(removeOk, _) => !removeOk
    case InitOp(_, _, removeOk, _) => !removeOk
  }

  /** One operation keeps a loaded cache loaded and keeps every file it spares. */
  lemma ApplyKeeps(cfg: Config, st: Store, op: Op, name: string)
    requires Loaded(st) && name in st.dir && Spares(cfg, op, name)
    ensures Loaded(Apply(cfg, st, op)) && name in Apply(cfg, st, op).dir
  {
    match op
    case CacheFileOp(src, t) =>
    case RemoveFileOp(src, ok) =>
      if RemoveFile(cfg, st, src, ok).reply.Ok? {
        assert Find(cfg, st, Some(SanitizeURI(cfg.skipURIencoding, src))) == NameOf(cfg, src);
      }
    case ClearCacheOp(removeOk, recreateOk) =>
    case InitOp(fsOk, dirOk, removeOk, recreateOk) =>
      if fsOk && dirOk && OverLimit(cfg, GetCurrentSize(cfg, st)) {
        var withDir := CreateCacheDir(st.(filesystem := true), dirOk);
        assert ClearCache(cfg, withDir.store, removeOk, recreateOk).store == withDir.store;
      }
  }

  /** A cached source stays cached through any operations that spare its file:
      `isCached` keeps answering true until `removeFile` or a clearing of the
      cache removes it. */
  lemma StaysCached(cfg: Config, st: Store, ops: seq<Op>, src: string)
    requires Loaded(st) && NameOf(cfg, src).Some? && NameOf(cfg, src).value in st.dir
    requires forall i :: 0 <= i < |ops| ==> Spares(cfg, ops[i], NameOf(cfg, src).value)
    ensures IsCached(cfg, Run(cfg, st, ops), Some(src)) == Ok((Some(SanitizeURI(cfg.skipURIencoding, src)), true))
  {
    KeptThrough(cfg, st, ops, NameOf(cfg, src).value);
    LookupHit(cfg, Run(cfg, st, ops), src);
  }

  /** Operations that spare a file keep it, and keep the cache loaded. */
  lemma {:induction false} KeptThrough(cfg: Config, st: Store, ops: seq<Op>, name: string)
    requires Loaded(st) && name in st.dir
    requires forall i :: 0 <= i < |ops| ==> Spares(cfg, ops[i], name)
    ensures Loaded(Run(cfg, st, ops)) && name in Run(cfg, st, ops).dir
    decreases |ops|
  {
    if |ops| > 0 {
      ApplyKeeps(cfg, st, ops[0], name);
      assert forall i :: 0 <= i < |ops[1..]| ==> ops[1..][i] == ops[i + 1];
      KeptThrough(cfg, Apply(cfg, st, ops[0]), ops[1..], name);
    }
  }

  /** `clearCache` that removes the folder leaves every source a miss. */
  lemma ClearThenMissing(cfg: Config, st: Store, recreateOk: bool, src: string)
    requires Loaded(st)
    ensures var after := ClearCache(cfg, st, true, recreateOk).store;
      IsCached(cfg, after, Some(src)) == Ok((Some(src), false))
  {
  }

  // ---------------------------------------------------------------------------
  // The size counter

  /** A download whose size is reported adds that size to the counter (the value
      written as a decimal string and read back with `parseInt`); one whose size
      is not reported leaves the counter as it is. */
  lemma CacheFileCounts(cfg: Config, st: Store, src: string, size: nat, reported: bool)
    requires Loaded(st) && src != "" && NameOf(cfg, src).Some? && st.storageAvailable
    requires CounterKey(cfg) in st.storage ==> st.storage[CounterKey(cfg)] == NumberToString(GetCurrentSize(cfg, st))
    ensures var after := CacheFile(cfg, st, src, Downloaded(size, reported)).store;
      GetCurrentSize(cfg, after) == (if reported then Add(GetCurrentSize(cfg, st), size) else GetCurrentSize(cfg, st))
  {
    ParseIntNumberToString(Finite(size));
    var st1 := st.(dir := st.dir[NameOf(cfg, src).value := size]);
    assert GetCurrentSize(cfg, st1) == GetCurrentSize(cfg, st);
  }

  /** The counter only ever holds what `setCurrentSize` wrote. */
  predicate CounterWellFormed(cfg: Config, st: Store) {
    CounterKey(cfg) in st.storage ==> st.storage[CounterKey(cfg)] == NumberToString(GetCurrentSize(cfg, st))
  }

  /** Every operation keeps the counter well formed. */
  lemma ApplyKeepsCounterWellFormed(cfg: Config, st: Store, op: Op)
    requires CounterWellFormed(cfg, st)
    ensures CounterWellFormed(cfg, Apply(cfg, st, op))
  {
    match op
    case CacheFileOp(src, t) =>
    case RemoveFileOp(src, ok) =>
    case ClearCacheOp(removeOk, recreateOk) =>
    case InitOp(fsOk, dirOk, removeOk, recreateOk) =>
  }

  /** A NaN counter stays NaN through downloads: it is never added to. */
  lemma NaNCounterSticks(cfg: Config, st: Store, src: string, t: Transfer)
    requires GetCurrentSize(cfg, st).NaN?
    ensures GetCurrentSize(cfg, CacheFile(cfg, st, src, t).store).NaN?
  {
    var after := CacheFile(cfg, st, src, t);
    if Loaded(st) && src != "" && NameOf(cfg, src).Some? && t.Downloaded? && t.sizeReported {
      var st1 := st.(dir := st.dir[NameOf(cfg, src).value := t.size]);
      assert GetCurrentSize(cfg, st1).NaN?;
      ParseIntNumberToString(NaN);
    }
  }

  /** A NaN counter disables eviction: it is never over the limit. */
  lemma NaNNeverEvicts(cfg: Config, st: Store, fsOk: bool, dirOk: bool, removeOk: bool, recreateOk: bool)
    requires GetCurrentSize(cfg, st).NaN?
    ensures Init(cfg, st, fsOk, dirOk, removeOk, recreateOk).store.dir == st.dir
  {
  }

  /** `clearCache` resets the counter to 0 once the folder is removed. */
  lemma ClearResetsCounter(cfg: Config, st: Store, recreateOk: bool)
    requires Loaded(st) && st.storageAvailable
    ensures GetCurrentSize(cfg, ClearCache(cfg, st, true, recreateOk).store) == Finite(0)
    ensures CounterWellFormed(cfg, ClearCache(cfg, st, true, recreateOk).store)
  {
  }

  // ---------------------------------------------------------------------------
  // Eviction in init

  /** The limit is strict: a counter of exactly `cacheClearSize` megabytes does
      not evict, one byte more does. */
  lemma EvictionIsStrict(cfg: Config, n: int)
    requires cfg.cacheClearSize > 0.0 && cfg.cacheClearSize.Floor as real == cfg.cacheClearSize
    requires n == cfg.cacheClearSize.Floor * 1048576
    ensures !OverLimit(cfg, Finite(n))
    ensures OverLimit(cfg, Finite(n + 1))
  {
  }

  /** With `cacheClearSize` 0 (the default) `init` never clears. */
  lemma NoLimitNoEviction(cfg: Config, st: Store, fsOk: bool, dirOk: bool, removeOk: bool, recreateOk: bool)
    requires cfg.cacheClearSize <= 0.0
    ensures Init(cfg, st, fsOk, dirOk, removeOk, recreateOk).store.dir == st.dir
  {
  }

  /** Over the limit, `init` empties the folder and resets the counter; its
      success callback runs even when the clearing fails, in which case the
      folder is left as it was. */
  lemma InitEvicts(cfg: Config, st: Store, removeOk: bool, recreateOk: bool)
    requires OverLimit(cfg, GetCurrentSize(cfg, st)) && st.storageAvailable
    ensures var r := Init(cfg, st, true, true, removeOk, recreateOk);
      r.reply == Ok(()) && Loaded(r.store)
      && (removeOk ==> r.store.dir == map[] && GetCurrentSize(cfg, r.store) == Finite(0))
      && (!removeOk ==> r.store.dir == st.dir)
  {
    var withDir := CreateCacheDir(st.(filesystem := true), true);
    assert GetCurrentSize(cfg, withDir.store) == GetCurrentSize(cfg, st);
  }

  /** A cache of 1.5 MB with a limit of 1 MB is cleared on `init`. */
  lemma InitEvictsExample(cfg: Config, st: Store)
    requires cfg.cacheClearSize == 1.0 && st.storageAvailable
    requires CounterKey(cfg) in st.storage && st.storage[CounterKey(cfg)] == NumberToString(Finite(1572864))
    ensures Init(cfg, st, true, true, true, true).store.dir == map[]
  {
    ParseIntNumberToString(Finite(1572864));
    InitEvicts(cfg, st, true, true);
  }

  // ---------------------------------------------------------------------------
  // Swapping an element to the cached file and back

  /** `useCachedFile` on a hit points `src` at the file and remembers the
      sanitized source; `useOnlineFile` then puts that source back and forgets
      it, leaving every other attribute as it was. When sanitizing changes
      nothing (encoding skipped, or a URL of unescaped characters only) the
      element is back to its original `src`. */
  lemma SwapAndRevert(cfg: Config, st: Store, v: ElementView, read: Option<string>)
    requires Loaded(st) && !cfg.useDataURI && SrcAttr in v.attrs
    requires NameOf(cfg, v.attrs[SrcAttr]).Some? && NameOf(cfg, v.attrs[SrcAttr]).value in st.dir
    ensures var sanitized := SanitizeURI(cfg.skipURIencoding, v.attrs[SrcAttr]);
      var swapped := UseCachedFile(cfg, st, Some(v), read);
      swapped.reply == Ok(())
      && swapped.element.value.Get(SrcAttr) == Some(cfg.getUrl(NameOf(cfg, v.attrs[SrcAttr]).value))
      && swapped.element.value.Get(OldSrcAttr) == Some(sanitized)
      && var back := UseOnlineFile(st, swapped.element).value;
         back.Get(SrcAttr) == Some(sanitized)
         && back.Get(OldSrcAttr).None?
         && (forall n :: n != SrcAttr && n != OldSrcAttr ==> back.Get(n) == v.Get(n))
         && back.backgroundImage == v.backgroundImage
  {
    var sanitized := SanitizeURI(cfg.skipURIencoding, v.attrs[SrcAttr]);
    var name := NameOf(cfg, v.attrs[SrcAttr]).value;
    ImgHit(cfg, st, v, read);
    RevertImg(st, v, cfg.getUrl(name), sanitized);
  }

  /** On a hit with file URLs, `useCachedFile` points `src` at the file's URL
      and records the sanitized source. */
  lemma ImgHit(cfg: Config, st: Store, v: ElementView, read: Option<string>)
    requires Loaded(st) && !cfg.useDataURI && SrcAttr in v.attrs
    requires NameOf(cfg, v.attrs[SrcAttr]).Some? && NameOf(cfg, v.attrs[SrcAttr]).value in st.dir
    ensures (UseCachedFile(cfg, st, Some(v), read)
             == ElementStep(Some(SetNewImgPath(v, cfg.getUrl(NameOf(cfg, v.attrs[SrcAttr]).value),
                                               SanitizeURI(cfg.skipURIencoding, v.attrs[SrcAttr]))), Ok(())))
  {
    var sanitized := SanitizeURI(cfg.skipURIencoding, v.attrs[SrcAttr]);
    var name := NameOf(cfg, v.attrs[SrcAttr]).value;
    UseCachedFileLoads(cfg, st, v, read);
    FindsName(cfg, st, v.attrs[SrcAttr]);
    ImgFileUrlHit(cfg, st, v, sanitized, name, read);
  }

  /** `useCachedFile` of an element with a `src` loads its sanitized source. */
  lemma UseCachedFileLoads(cfg: Config, st: Store, v: ElementView, read: Option<string>)
    requires Loaded(st) && SrcAttr in v.attrs
    ensures (UseCachedFile(cfg, st, Some(v), read)
             == LoadCachedFile(cfg, st, Some(v), Some(SanitizeURI(cfg.skipURIencoding, v.attrs[SrcAttr])), ImgSetter, read))
  {
  }

  /** A source whose file is in the folder is found under that file's name. */
  lemma FindsName(cfg: Config, st: Store, src: string)
    requires NameOf(cfg, src).Some? && NameOf(cfg, src).value in st.dir
    ensures Find(cfg, st, Some(SanitizeURI(cfg.skipURIencoding, src))) == NameOf(cfg, src)
  {
  }

  /** `useOnlineFile` undoes `setNewImgPath` with a non-empty old source: `src`
      is the old source again and the record is gone. */
  lemma RevertImg(st: Store, v: ElementView, u: string, s: string)
    requires Loaded(st) && s != ""
    ensures var back := UseOnlineFile(st, Some(SetNewImgPath(v, u, s))).value;
      back.Get(SrcAttr) == Some(s)
      && back.Get(OldSrcAttr).None?
      && (forall n :: n != SrcAttr && n != OldSrcAttr ==> back.Get(n) == v.Get(n))
      && back.backgroundImage == v.backgroundImage
  {
    assert SetNewImgPath(v, u, s).Truthy(OldSrcAttr);
  }

  /** An image lookup of `s` that finds `name`, with file URLs, points `src` at
      the URL of `name`. */
  lemma ImgFileUrlHit(cfg: Config, st: Store, v: ElementView, s: string, name: string, read: Option<string>)
    requires Loaded(st) && !cfg.useDataURI && Find(cfg, st, Some(s)) == Some(name)
    ensures (LoadCachedFile(cfg, st, Some(v), Some(s), ImgSetter, read)
             == ElementStep(Some(SetNewImgPath(v, cfg.getUrl(name), s)), Ok(())))
  {
  }

  /** With an unchanged sanitized form the revert gives back the original `src`. */
  lemma SwapAndRevertExact(cfg: Config, st: Store, v: ElementView, read: Option<string>)
    requires Loaded(st) && !cfg.useDataURI && SrcAttr in v.attrs
    requires NameOf(cfg, v.attrs[SrcAttr]).Some? && NameOf(cfg, v.attrs[SrcAttr]).value in st.dir
    requires cfg.skipURIencoding || forall i :: 0 <= i < |v.attrs[SrcAttr]| ==> Unescaped(v.attrs[SrcAttr][i])
    ensures UseOnlineFile(st, UseCachedFile(cfg, st, Some(v), read).element).value.Get(SrcAttr)
            == Some(v.attrs[SrcAttr])
  {
    SanitizeIdentity(cfg.skipURIencoding, v.attrs[SrcAttr]);
    SwapAndRevert(cfg, st, v, read);
  }

  /** Sanitizing changes nothing when encoding is skipped or when every
      character is one `encodeURI` leaves alone (a double quote is not). */
  lemma SanitizeIdentity(skip: bool, x: string)
    requires skip || forall i :: 0 <= i < |x| ==> Unescaped(x[i])
    ensures SanitizeURI(skip, x) == x
  {
    if !skip {
      if |x| > 0 {
        assert Unescaped(x[0]);
        assert x[0] != '"';
      }
      assert StripEnclosingQuotes(x) == x;
      EncodeURIIdentity(x);
    }
  }

  /** `useOnlineFile` twice is `useOnlineFile` once. */
  lemma UseOnlineFileIdempotent(st: Store, v: Option<ElementView>)
    ensures UseOnlineFile(st, UseOnlineFile(st, v)) == UseOnlineFile(st, v)
  {
    if Loaded(st) && v.Some? {
      var once := UseOnlineFile(st, v).value;
      assert !once.Truthy(OldSrcAttr);
      assert once.Remove(OldSrcAttr) == once by {
        assert OldSrcAttr !in once.attrs;
        assert once.attrs - {OldSrcAttr} == once.attrs;
      }
    }
  }

  /** `useBackgroundOnlineFile` twice is `useBackgroundOnlineFile` once. */
  lemma UseBackgroundOnlineFileIdempotent(v: Option<ElementView>)
    ensures UseBackgroundOnlineFile(UseBackgroundOnlineFile(v)) == UseBackgroundOnlineFile(v)
  {
    if v.Some? {
      var once := UseBackgroundOnlineFile(v).value;
      assert OldBackgroundAttr !in once.attrs;
      assert once.attrs - {OldBackgroundAttr} == once.attrs;
    }
  }

  /** On a miss `useCachedFile` calls the error callback and changes nothing: it
      does not download. */
  lemma MissLeavesElement(cfg: Config, st: Store, v: ElementView, read: Option<string>)
    requires Loaded(st) && SrcAttr in v.attrs
    requires NameOf(cfg, v.attrs[SrcAttr]).None? || NameOf(cfg, v.attrs[SrcAttr]).value !in st.dir
    ensures UseCachedFile(cfg, st, Some(v), read) == ElementStep(Some(v), Err)
  {
  }

  /** With data URIs, an empty or failed read is an error and leaves the element. */
  lemma EmptyReadLeavesElement(cfg: Config, st: Store, v: ElementView, read: Option<string>)
    requires Loaded(st) && cfg.useDataURI && (read.None? || read == Some(""))
    ensures UseCachedFile(cfg, st, Some(v), read).element == Some(v)
    ensures !UseCachedFile(cfg, st, Some(v), read).reply.Ok?
  {
    var src := v.Get(SrcAttr);
    if src.Some? || cfg.skipURIencoding {
      var imgUrl := if src.Some? then Some(SanitizeURI(cfg.skipURIencoding, src.value)) else None;
      EmptyReadLoad(cfg, st, v, imgUrl, read);
      assert UseCachedFile(cfg, st, Some(v), read) == LoadCachedFile(cfg, st, Some(v), imgUrl, ImgSetter, read);
    }
  }

  /** With data URIs, a lookup whose read is empty or failed is not a success. */
  lemma EmptyReadLoad(cfg: Config, st: Store, v: ElementView, imgUrl: Option<string>, read: Option<string>)
    requires Loaded(st) && cfg.useDataURI && (read.None? || read == Some(""))
    ensures LoadCachedFile(cfg, st, Some(v), imgUrl, ImgSetter, read) == ElementStep(Some(v), Err)
  {
    var found := Find(cfg, st, imgUrl);
    if found.Some? {
      assert LoadCachedFile(cfg, st, Some(v), imgUrl, ImgSetter, read) == ElementStep(Some(v), Err);
    }
  }

  // ---------------------------------------------------------------------------
  // Backgrounds

  /** A URL that `sanitizeURI` changes: one with a space. */
  lemma SpaceIsEncoded(u: string)
    requires ' ' in u
    ensures SanitizeURI(false, u) != u
  {
    var s := SanitizeURI(false, u);
    SanitizedChars(u);
    var i :| 0 <= i < |u| && u[i] == ' ';
    assert !EncodedChar(' ');
    if i < |s| {
      assert EncodedChar(s[i]);
      assert s[i] != u[i];
    } else {
      assert |s| != |u|;
    }
  }

  /** The background of `v` is cached under `NameOf(u)`, and the corrected
      `useCachedBackground` points the background at that file. */
  lemma CorrectedBackgroundHit(cfg: Config, st: Store, v: ElementView, read: Option<string>)
    requires Loaded(st) && !cfg.useDataURI
    requires GetBackgroundImageURL(v).Url? && GetBackgroundImageURL(v).url != ""
    requires NameOf(cfg, GetBackgroundImageURL(v).url).Some? && NameOf(cfg, GetBackgroundImageURL(v).url).value in st.dir
    ensures var u := GetBackgroundImageURL(v).url;
      var s := SanitizeURI(cfg.skipURIencoding, u);
      UseCachedBackgroundCorrected(cfg, st, v, read)
      == ElementStep(Some(SetBackgroundImagePath(v, cfg.getUrl(NameOf(cfg, u).value), s)), Ok(()))
      && s != ""
  {
    var u := GetBackgroundImageURL(v).url;
    var s := SanitizeURI(cfg.skipURIencoding, u);
    var name := NameOf(cfg, u).value;
    assert s != "";
    assert Find(cfg, st, Some(s)) == Some(name);
    BackgroundFileUrlHit(cfg, st, v, s, name, read);
  }

  /** A background lookup of `s` that finds `name`, with file URLs, points the
      background at the URL of `name`. */
  lemma BackgroundFileUrlHit(cfg: Config, st: Store, v: ElementView, s: string, name: string, read: Option<string>)
    requires Loaded(st) && !cfg.useDataURI && Find(cfg, st, Some(s)) == Some(name)
    ensures (LoadCachedFile(cfg, st, Some(v), Some(s), BackgroundSetter, read)
             == ElementStep(Some(SetBackgroundImagePath(v, cfg.getUrl(name), s)), Ok(())))
  {
  }

  /** `cacheBackground` with a download stores the file of the background URL. */
  lemma CacheBackgroundStores(cfg: Config, st: Store, v: ElementView, size: nat)
    requires Loaded(st)
    requires GetBackgroundImageURL(v).Url? && NameOf(cfg, GetBackgroundImageURL(v).url).Some?
    ensures var cached := CacheBackground(cfg, st, v, Downloaded(size, false));
      cached.reply.Ok? && Loaded(cached.store)
      && cached.store.dir == st.dir[NameOf(cfg, GetBackgroundImageURL(v).url).value := size]
  {
    var u := GetBackgroundImageURL(v).url;
    assert CacheBackground(cfg, st, v, Downloaded(size, false)) == CacheFile(cfg, st, u, Downloaded(size, false));
    CacheFileDir(cfg, st, u, Downloaded(size, false));
  }

  /** As written, `useCachedBackground` looks up the unsanitized URL while
      `cacheBackground` stored the sanitized one: after caching the background
      of a fresh cache, with a URL that sanitizing changes (one with a space)
      and a SHA-1-shaped hash that tells the two forms apart, the lookup misses
      and the error callback runs. */
  lemma BackgroundLookupMisses(cfg: Config, st: Store, v: ElementView, size: nat, read: Option<string>)
    requires Loaded(st) && st.dir == map[] && !cfg.skipURIencoding && Sha1Shaped(cfg.hash)
    requires GetBackgroundImageURL(v).Url? && ' ' in GetBackgroundImageURL(v).url
    requires cfg.hash(GetBackgroundImageURL(v).url) != cfg.hash(SanitizeURI(false, GetBackgroundImageURL(v).url))
    ensures var cached := CacheBackground(cfg, st, v, Downloaded(size, false));
      cached.reply.Ok? && UseCachedBackground(cfg, cached.store, v, read) == ElementStep(Some(v), Err)
  {
    var u := GetBackgroundImageURL(v).url;
    var s := SanitizeURI(false, u);
    assert u != "";
    assert s != "" by {
      SanitizedChars(u);
      SpaceIsEncoded(u);
      if s == "" {
        EncodeURIInjective(StripEnclosingQuotes(u), "");
        assert false;
      }
    }
    var name := GetCachedFileName(cfg.hash, s).value;
    var cached := CacheBackground(cfg, st, v, Downloaded(size, false));
    assert cached == CacheFile(cfg, st, u, Downloaded(size, false));
    CacheFileDir(cfg, st, u, Downloaded(size, false));
    assert cached.store.dir == map[name := size];
    assert GetCachedFileName(cfg.hash, u) != Some(name) by {
      if GetCachedFileName(cfg.hash, u) == Some(name) {
        SameFileNameSameHash(cfg.hash, u, s);
      }
    }
    assert Find(cfg, cached.store, Some(u)).None?;
  }

  /** As written, even a hit fails: the unbound `setBackgroundImagePath` throws
      inside the platform callback, so neither callback of the caller runs and
      the element keeps its background. With encoding skipped the lookup does hit. */
  lemma BackgroundHitThrows(cfg: Config, st: Store, v: ElementView, size: nat, read: Option<string>)
    requires Loaded(st) && cfg.skipURIencoding && !cfg.useDataURI
    requires GetBackgroundImageURL(v).Url? && GetBackgroundImageURL(v).url != ""
    requires NameOf(cfg, GetBackgroundImageURL(v).url).Some?
    ensures var cached := CacheBackground(cfg, st, v, Downloaded(size, false));
      cached.reply.Ok? && UseCachedBackground(cfg, cached.store, v, read) == ElementStep(Some(v), Uncaught)
  {
    var u := GetBackgroundImageURL(v).url;
    var cached := CacheBackground(cfg, st, v, Downloaded(size, false));
    CacheBackgroundStores(cfg, st, v, size);
    assert Find(cfg, cached.store, Some(u)) == NameOf(cfg, u);
    UnboundHit(cfg, cached.store, v, u, NameOf(cfg, u).value, read);
  }

  /** As written, a background lookup of `u` that finds a file with a URL
      throws in the unbound setter. */
  lemma UnboundHit(cfg: Config, st: Store, v: ElementView, u: string, name: string, read: Option<string>)
    requires Loaded(st) && !cfg.useDataURI && Find(cfg, st, Some(u)) == Some(name)
    requires GetBackgroundImageURL(v) == Url(u) && u != ""
    ensures UseCachedBackground(cfg, st, v, read) == ElementStep(Some(v), Uncaught)
  {
    assert UseCachedBackground(cfg, st, v, read)
           == PointAtFile(cfg, v, Some(u), Find(cfg, st, Some(u)), UnboundBackgroundSetter, read);
    UnboundPoint(cfg, v, u, name, read);
  }

  /** The unbound setter throws once the lookup found a file with a URL. */
  lemma UnboundPoint(cfg: Config, v: ElementView, u: string, name: string, read: Option<string>)
    requires !cfg.useDataURI
    ensures PointAtFile(cfg, v, Some(u), Some(name), UnboundBackgroundSetter, read) == ElementStep(Some(v), Uncaught)
  {
  }

  /** Corrected, `cacheBackground` followed by `useCachedBackground` swaps the
      background to the cached file and remembers the sanitized URL;
      `useBackgroundOnlineFile` then puts `url("<sanitized>")` back. */
  lemma BackgroundSwapAndRevert(cfg: Config, st: Store, v: ElementView, size: nat, read: Option<string>)
    requires Loaded(st) && !cfg.useDataURI
    requires GetBackgroundImageURL(v).Url? && GetBackgroundImageURL(v).url != ""
    requires NameOf(cfg, GetBackgroundImageURL(v).url).Some?
    ensures var u := GetBackgroundImageURL(v).url;
      var s := SanitizeURI(cfg.skipURIencoding, u);
      var cached := CacheBackground(cfg, st, v, Downloaded(size, false));
      var swapped := UseCachedBackgroundCorrected(cfg, cached.store, v, read);
      swapped.reply == Ok(())
      && swapped.element.value.backgroundImage == "url(\"" + cfg.getUrl(NameOf(cfg, u).value) + "\")"
      && swapped.element.value.Get(OldBackgroundAttr) == Some(s)
      && UseBackgroundOnlineFile(swapped.element).value.backgroundImage == "url(\"" + s + "\")"
  {
    var cached := CacheBackground(cfg, st, v, Downloaded(size, false));
    CacheBackgroundStores(cfg, st, v, size);
    CorrectedBackgroundHit(cfg, cached.store, v, read);
  }

  /** After the corrected swap the element still reports the same URL (read back
      from `data-old-background`), so a second `useCachedBackground` finds the
      same file. */
  lemma BackgroundSwapKeepsUrl(cfg: Config, st: Store, v: ElementView, read: Option<string>)
    requires Loaded(st) && !cfg.useDataURI && !cfg.skipURIencoding
    requires GetBackgroundImageURL(v).Url? && GetBackgroundImageURL(v).url != ""
    requires NameOf(cfg, GetBackgroundImageURL(v).url).Some? && NameOf(cfg, GetBackgroundImageURL(v).url).value in st.dir
    ensures var u := GetBackgroundImageURL(v).url;
      var swapped := UseCachedBackgroundCorrected(cfg, st, v, read);
      GetBackgroundImageURL(swapped.element.value) == Url(RemoveChars(SanitizeURI(false, u), Quotes))
  {
    var u := GetBackgroundImageURL(v).url;
    var s := SanitizeURI(false, u);
    CorrectedBackgroundHit(cfg, st, v, read);
    var e := SetBackgroundImagePath(v, cfg.getUrl(NameOf(cfg, u).value), s);
    assert e.attrs[OldBackgroundAttr] == s;
    SanitizedNoLineTerminator(u);
    OldBackgroundWins(e);
  }

  /** A sanitized URL is all printable ASCII: it has no line terminator. */
  lemma SanitizedNoLineTerminator(u: string)
    ensures forall i :: 0 <= i < |SanitizeURI(false, u)| ==> !IsLineTerminator(SanitizeURI(false, u)[i])
  {
    var s := SanitizeURI(false, u);
    SanitizedChars(u);
    forall i | 0 <= i < |s| ensures !IsLineTerminator(s[i]) {
      assert EncodedChar(s[i]);
    }
  }
}
