/**
 * What the legacy cache promises, and how it compares with the current library:
 * the same file names for the unsanitized source, a path join that never
 * removes a slash, a cached source found until the folder is cleared, and an
 * element swap that `useOnlineFile` undoes exactly.
 */
module LegacyCacheLemmas {
  import opened Wrappers
  import opened JsStrings
  import opened CacheKeys
  import opened Dom
  import opened BackgroundUrl
  import opened Callbacks
  import CS = CacheStore
  import opened LegacyCache

  // ---------------------------------------------------------------------------
  // Names and paths

  /** For a non-empty source the legacy file name is the current library's
      `getCachedFileName` of that same (unsanitized) source. */
  lemma NameAgrees(hash: Hash, src: string)
    requires src != ""
    ensures CachedFileName(hash, src) == GetCachedFileName(hash, src).value
  {
  }

  /** With a SHA-1-shaped hash and a root that does not end in `/`, the legacy
      path is the current library's `appendPaths` of the root and the name. */
  lemma PathAgreesWithAppendPaths(hash: Hash, src: string, root: string)
    requires Sha1Shaped(hash) && src != ""
    requires root != "" && root[|root| - 1] != '/'
    ensures CachedFilePath(hash, src, root) == AppendPaths(root, GetCachedFileName(hash, src).value)
  {
    var name := GetCachedFileName(hash, src).value;
    CachedFileNameShape(hash, src);
    assert name[0] != '/' by {
      assert name[0] == name[..40][0];
    }
    AppendPathsOneSlash(root, name);
  }

  /** The legacy join never merges slashes: a root ending in `/` gives `//`. */
  lemma PathKeepsDoubleSlash(hash: Hash, src: string, root: string)
    requires root != "" && root[|root| - 1] == '/'
    ensures var p := CachedFilePath(hash, src, root);
      |p| > |root| && p[|root| - 1] == '/' && p[|root|] == '/'
  {
    var p := CachedFilePath(hash, src, root);
    assert p == root + "/" + CachedFileName(hash, src);
    assert p[|root| - 1] == root[|root| - 1];
  }

  /** Every path of a file ends with its name, so `cacheFile` and `isCached`
      (from the root, with `dirEntry.fullPath`) and `useCachedFile` (inside the
      folder, with no root) name the same file. */
  lemma PathEndsWithName(hash: Hash, src: string, root: string)
    ensures var p := CachedFilePath(hash, src, root);
      var name := CachedFileName(hash, src);
      |name| <= |p| && p[|p| - |name|..] == name
  {
    var p := CachedFilePath(hash, src, root);
    var name := CachedFileName(hash, src);
    if root != "" {
      assert p == (root + "/") + name;
    }
  }

  // ---------------------------------------------------------------------------
  // The folder

  /** After a successful download, `isCached` of the same source answers true. */
  lemma CacheFileThenFound(cfg: Config, st: Store, src: string)
    requires Loaded(st) && src != ""
    ensures var after := CacheFile(cfg, st, src, Downloaded);
      after.reply == Ok(()) && IsCached(cfg, after.store, src) == Ok((src, true))
  {
  }

  /** The operations that change the legacy folder. */
  datatype Op =
    | CacheFileOp(src: string, t: Transfer)
    | ClearCacheOp(removeOk: bool, recreateOk: bool)
    | InitOp(fsOk: bool, dirOk: bool)

  function Apply(cfg: Config, st: Store, op: Op): Store {
    match op
    case CacheFileOp(src, t) => CacheFile(cfg, st, src, t).store
    case ClearCacheOp(removeOk, recreateOk) => ClearCache(st, removeOk, recreateOk).store
    case InitOp(fsOk, dirOk) => Init(st, fsOk, dirOk).store
  }

  function Run(cfg: Config, st: Store, ops: seq<Op>): Store
    decreases |ops|
  {
    if |ops| == 0 then st else Run(cfg, Apply(cfg, st, ops[0]), ops[1..])
  }

  /** A file stays in the folder, and the cache stays loaded, through any
      operations that do not clear the folder: the legacy cache never removes a
      single file. */
  lemma {:induction false} StaysCached(cfg: Config, st: Store, ops: seq<Op>, src: string)
    requires Loaded(st) && CachedFileName(cfg.hash, src) in st.files
    requires forall i :: 0 <= i < |ops| ==> !(ops[i].ClearCacheOp? && ops[i].removeOk)
    ensures IsCached(cfg, Run(cfg, st, ops), src) == Ok((src, true))
    decreases |ops|
  {
    if |ops| > 0 {
      var next := Apply(cfg, st, ops[0]);
      assert Loaded(next) && CachedFileName(cfg.hash, src) in next.files by {
        match ops[0]
        case CacheFileOp(s, t) =>
        case ClearCacheOp(removeOk, recreateOk) =>
        case InitOp(fsOk, dirOk) =>
      }
      StaysCached(cfg, next, ops[1..], src);
    }
  }

  /** A clearing whose removal works empties the folder even when recreating it
      fails; the success callback then never runs, but the cache still counts as
      loaded. */
  lemma ClearThenMissing(st: Store, recreateOk: bool, cfg: Config, src: string)
    requires Loaded(st)
    ensures var r := ClearCache(st, true, recreateOk);
      IsCached(cfg, r.store, src) == Ok((src, false))
      && (r.reply.Ok? <==> recreateOk) && (!recreateOk ==> r.reply.NoReply?)
  {
  }

  /** When the folder cannot be opened `init` calls neither callback. */
  lemma InitFolderFailureIsSilent(st: Store)
    ensures Init(st, true, false).reply.NoReply?
    ensures Init(st, true, false).store.filesystem
  {
  }

  // ---------------------------------------------------------------------------
  // Elements

  /** On a hit `useCachedFile` points `src` at the file and remembers the source
      exactly; `useOnlineFile` then puts back that exact source. */
  lemma SwapAndRevertExact(cfg: Config, st: Store, v: ElementView, read: Option<string>)
    requires Loaded(st) && !cfg.useDataURI && SrcAttr in v.attrs && v.attrs[SrcAttr] != ""
    requires CachedFileName(cfg.hash, v.attrs[SrcAttr]) in st.files
    ensures var swapped := UseCachedFile(cfg, st, Some(v), read);
      swapped.reply == Ok(())
      && swapped.element.value.Get(SrcAttr) == Some(cfg.getUrl(CachedFileName(cfg.hash, v.attrs[SrcAttr])))
      && UseOnlineFile(swapped.element).value.Get(SrcAttr) == Some(v.attrs[SrcAttr])
      && UseOnlineFile(swapped.element).value.Get(OldSrcAttr).None?
  {
    var src := v.attrs[SrcAttr];
    var e := SetNewImgPath(v, cfg.getUrl(CachedFileName(cfg.hash, src)), src);
    assert UseCachedFile(cfg, st, Some(v), read) == CS.ElementStep(Some(e), Ok(()));
    assert e.Truthy(OldSrcAttr);
  }

  /** An element whose `src` is the empty string is swapped too, but
      `useOnlineFile` cannot put the empty source back because it is falsy, so
      the element keeps the file URL. */
  lemma EmptySourceNotRestored(cfg: Config, st: Store, v: ElementView, read: Option<string>)
    requires Loaded(st) && !cfg.useDataURI && SrcAttr in v.attrs && v.attrs[SrcAttr] == ""
    requires CachedFileName(cfg.hash, "") in st.files
    ensures (UseOnlineFile(UseCachedFile(cfg, st, Some(v), read).element).value.Get(SrcAttr)
             == Some(cfg.getUrl(CachedFileName(cfg.hash, ""))))
  {
    var e := SetNewImgPath(v, cfg.getUrl(CachedFileName(cfg.hash, "")), "");
    assert UseCachedFile(cfg, st, Some(v), read) == CS.ElementStep(Some(e), Ok(()));
    assert !e.Truthy(OldSrcAttr);
  }

  /** `useOnlineFile` twice is `useOnlineFile` once. */
  lemma UseOnlineFileIdempotent(v: Option<ElementView>)
    ensures UseOnlineFile(UseOnlineFile(v)) == UseOnlineFile(v)
  {
    if v.Some? {
      var once := UseOnlineFile(v).value;
      assert OldSrcAttr !in once.attrs;
      assert once.attrs - {OldSrcAttr} == once.attrs;
    }
  }

  /** Once the current library is loaded its `useOnlineFile` is the legacy one;
      the legacy one alone also works before `init`. */
  lemma UseOnlineFileAgrees(st: CS.Store, v: Option<ElementView>)
    requires CS.Loaded(st)
    ensures CS.UseOnlineFile(st, v) == UseOnlineFile(v)
  {
  }

  /** On a miss, or with an empty or failed data URI read, the fail callback
      runs and the element is untouched. */
  lemma FailureLeavesElement(cfg: Config, st: Store, v: ElementView, read: Option<string>)
    requires Loaded(st) && SrcAttr in v.attrs
    requires (CachedFileName(cfg.hash, v.attrs[SrcAttr]) !in st.files
              || (cfg.useDataURI && (read.None? || read == Some(""))))
    ensures UseCachedFile(cfg, st, Some(v), read) == CS.ElementStep(Some(v), Err)
  {
  }

  // ---------------------------------------------------------------------------
  // Backgrounds

  /** The legacy background round trip: the URL is taken with its quotes, the
      file is stored under the quoted URL, and with file URLs
      `useCachedBackground` finds it and sets `url(<file URL>)`. */
  lemma BackgroundRoundTrip(cfg: Config, st: Store, v: ElementView, x: string, read: Option<string>)
    requires Loaded(st) && !cfg.useDataURI
    requires v.backgroundImage == "url(\"" + x + "\")"
    requires forall i :: 0 <= i < |x| ==> !IsLineTerminator(x[i])
    ensures var name := CachedFileName(cfg.hash, "\"" + x + "\"");
      var cached := CacheBackground(cfg, st, v.backgroundImage, Downloaded);
      cached.reply == Ok(()) && name in cached.store.files
      && UseCachedBackground(cfg, cached.store, Some(v), read)
         == CS.ElementStep(Some(v.SetBackground("url(" + cfg.getUrl(name) + ")")), Ok(()))
  {
    LegacyKeepsQuotes(x);
  }

  /** As written, a data URI that was read makes `useCachedBackground` throw a
      ReferenceError inside the reader callback: neither callback runs and the
      background is untouched. */
  lemma DataUriBackgroundThrows(cfg: Config, st: Store, v: ElementView, d: string)
    requires Loaded(st) && cfg.useDataURI && d != ""
    requires LegacyBackgroundURL(v.backgroundImage).Some?
    requires CachedFileName(cfg.hash, LegacyBackgroundURL(v.backgroundImage).value) in st.files
    ensures UseCachedBackground(cfg, st, Some(v), Some(d)) == CS.ElementStep(Some(v), Uncaught)
  {
  }

  /** Corrected, the data URI becomes the background, as a file URL does. */
  lemma DataUriBackgroundCorrected(cfg: Config, st: Store, v: ElementView, d: string)
    requires Loaded(st) && cfg.useDataURI && d != ""
    requires LegacyBackgroundURL(v.backgroundImage).Some?
    requires CachedFileName(cfg.hash, LegacyBackgroundURL(v.backgroundImage).value) in st.files
    ensures (UseCachedBackgroundCorrected(cfg, st, Some(v), Some(d))
             == CS.ElementStep(Some(v.SetBackground("url(" + d + ")")), Ok(())))
  {
  }

  /** The corrected version differs from the one as written only on a data URI
      hit that was read. */
  lemma CorrectedDiffersOnlyOnDataUriHit(cfg: Config, st: Store, v: Option<ElementView>, read: Option<string>)
    requires (!cfg.useDataURI || read.None? || read == Some("") || !Loaded(st) || v.None?
              || LegacyBackgroundURL(v.value.backgroundImage).None?
              || CachedFileName(cfg.hash, LegacyBackgroundURL(v.value.backgroundImage).value) !in st.files)
    ensures UseCachedBackgroundCorrected(cfg, st, v, read) == UseCachedBackground(cfg, st, v, read)
  {
  }
}
