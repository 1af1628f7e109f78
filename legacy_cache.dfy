/**
 * The legacy `js/imgcache.js`: the same file-name helpers as the current
 * library, but no URL sanitizing, no size counter, a plain `root + '/'` path
 * join, its own gates, and a `_createCacheDir` that only logs a failure. The
 * cache folder is the set of the file names it holds; `cacheFile` and
 * `isCached` reach a file by `dirEntry.fullPath + '/' + name` from the root
 * and `useCachedFile` by `name` inside the folder, which is the same file.
 */
module LegacyCache {
  import opened Wrappers
  import opened CacheKeys
  import opened Dom
  import opened BackgroundUrl
  import opened Callbacks
  import CS = CacheStore

  /** `ImgCache.options.useDataURI`, the hash (`SHA1`), and `_getFileEntryURL`
      of the file of a given name. */
  datatype Config = Config(useDataURI: bool, hash: Hash, getUrl: string -> string)

  /** `ImgCache.filesystem` / `ImgCache.dirEntry` (set or not), `ImgCache.ready`,
      and the names of the files in the cache folder. */
  datatype Store = Store(filesystem: bool, dirEntry: bool, ready: bool, files: set<string>)

  predicate Loaded(st: Store) {
    st.filesystem && st.dirEntry
  }

  /** The outcome of a download. */
  datatype Transfer = Downloaded | TransferFailed

  /** A new state and the reply of the call that produced it. */
  datatype Step<T> = Step(store: Store, reply: Reply<T>)

  /** The file name of `_getCachedFilePath`: the hash of the source as given,
      then `.` and the extension when there is one. Unlike the current library
      an empty source still has a name. */
  function CachedFileName(hash: Hash, src: string): (r: string)
    ensures |hash(src)| <= |r| && r[..|hash(src)|] == hash(src)
    ensures (|r| == |hash(src)|
      || (r[|hash(src)|] == '.' && r[|hash(src)| + 1..] == FileGetExtension(URIGetFileName(src))))
  {
    var ext := FileGetExtension(URIGetFileName(src));
    hash(src) + (if ext != "" then "." + ext else "")
  }

  /** `_getCachedFilePath(img_src, local_root)`: the file name, prefixed by
      `local_root + '/'` when `local_root` is non-empty. */
  function CachedFilePath(hash: Hash, src: string, localRoot: string): (r: string)
    ensures localRoot == "" ==> r == CachedFileName(hash, src)
    ensures localRoot != "" ==> r == localRoot + "/" + CachedFileName(hash, src)
  {
    var name := CachedFileName(hash, src);
    if localRoot != "" then localRoot + "/" + name else name
  }

  /** `_createCacheDir` once a file system is open: on success the folder is
      opened, the cache is ready and the callback runs; a failure is only
      logged, so no callback runs at all. */
  function CreateCacheDir(st: Store, dirOk: bool): (r: Step<()>)
    requires st.filesystem
    ensures r.reply.Ok? <==> dirOk
    ensures !r.reply.Ok? ==> r.reply.NoReply?
    ensures dirOk ==> r.store == st.(dirEntry := true, ready := true)
    ensures !dirOk ==> r.store == st
  {
    if dirOk then Step(st.(dirEntry := true, ready := true), Ok(())) else Step(st, NoReply)
  }

  /** `ImgCache.init`: a file system that cannot be opened calls the error
      callback; otherwise the folder is opened as `_createCacheDir` does. */
  function Init(st: Store, fsOk: bool, dirOk: bool): (r: Step<()>)
    ensures r.reply.Ok? <==> fsOk && dirOk
    ensures r.reply.Err? <==> !fsOk
    ensures fsOk && dirOk ==> Loaded(r.store) && r.store.ready
    ensures r.store.files == st.files
  {
    if !fsOk then Step(st, Err) else CreateCacheDir(st.(filesystem := true), dirOk)
  }

  /** `ImgCache.cacheFile`: silent when not loaded or without a source;
      otherwise the source, unsanitized, is downloaded into its file and the
      success callback runs without arguments. */
  function CacheFile(cfg: Config, st: Store, src: string, t: Transfer): (r: Step<()>)
    ensures !Loaded(st) || src == "" ==> r == Step(st, NoReply)
    ensures r.reply.Ok? <==> Loaded(st) && src != "" && t.Downloaded?
    ensures r.store == st.(files := r.store.files)
    ensures r.reply.Ok? ==> r.store.files == st.files + {CachedFileName(cfg.hash, src)}
    ensures !r.reply.Ok? ==> r.store == st
  {
    if !Loaded(st) || src == "" then Step(st, NoReply)
    else if t.TransferFailed? then Step(st, Err)
    else Step(st.(files := st.files + {CachedFileName(cfg.hash, src)}), Ok(()))
  }

  /** `ImgCache.isCached`: silent when not loaded; otherwise the response
      callback receives the source and whether its file exists. */
  function IsCached(cfg: Config, st: Store, src: string): (r: Reply<(string, bool)>)
    ensures !Loaded(st) ==> r.NoReply?
    ensures Loaded(st) ==> r == Ok((src, CachedFileName(cfg.hash, src) in st.files))
  {
    if !Loaded(st) then NoReply else Ok((src, CachedFileName(cfg.hash, src) in st.files))
  }

  /** `ImgCache.useOnlineFile`: not gated; nothing happens without an element;
      otherwise `src` gets back the remembered source when it is non-empty, and
      the remembered source is removed. */
  function UseOnlineFile(v: Option<ElementView>): (r: Option<ElementView>)
    ensures v.None? ==> r.None?
    ensures v.Some? ==> (r.Some? && r.value.Get(OldSrcAttr).None?
      && r.value.Get(SrcAttr) == (if v.value.Truthy(OldSrcAttr) then v.value.Get(OldSrcAttr) else v.value.Get(SrcAttr))
      && (forall n :: n != SrcAttr && n != OldSrcAttr ==> r.value.Get(n) == v.value.Get(n))
      && r.value.backgroundImage == v.value.backgroundImage)
  {
    if v.None? then None
    else
      var e := v.value;
      var restored := if e.Truthy(OldSrcAttr) then e.Set(SrcAttr, e.attrs[OldSrcAttr]) else e;
      Some(restored.Remove(OldSrcAttr))
  }

  /** `_setNewImgPath`. */
  function SetNewImgPath(v: ElementView, newSrc: string, oldSrc: string): (r: ElementView)
    ensures r.Get(SrcAttr) == Some(newSrc) && r.Get(OldSrcAttr) == Some(oldSrc)
    ensures forall n :: n != SrcAttr && n != OldSrcAttr ==> r.Get(n) == v.Get(n)
    ensures r.backgroundImage == v.backgroundImage
  {
    v.Set(SrcAttr, newSrc).Set(OldSrcAttr, oldSrc)
  }

  /** `ImgCache.useCachedFile`: silent when not loaded or without an element; a
      missing `src` makes `SHA1` throw. On a miss, or when the data URI read
      fails or is empty, the fail callback runs and the element is untouched;
      on a hit `src` points at the file (its data URI or its URL) and the exact
      original `src` is remembered. */
  function UseCachedFile(cfg: Config, st: Store, v: Option<ElementView>, read: Option<string>): (r: CS.ElementStep)
    ensures !Loaded(st) || v.None? ==> r == CS.ElementStep(v, NoReply)
    ensures !r.reply.Ok? ==> r.element == v
    ensures Loaded(st) && v.Some? && SrcAttr !in v.value.attrs ==> r.reply.Throws?
    ensures (r.reply.Ok? ==> (v.Some? && SrcAttr in v.value.attrs
      && CachedFileName(cfg.hash, v.value.attrs[SrcAttr]) in st.files
      && r.element.Some? && r.element.value.Get(OldSrcAttr) == Some(v.value.attrs[SrcAttr])))
  {
    if !Loaded(st) || v.None? then CS.ElementStep(v, NoReply)
    else
      var src := v.value.Get(SrcAttr);
      if src.None? then CS.ElementStep(v, Throws)
      else
        var name := CachedFileName(cfg.hash, src.value);
        if name !in st.files then CS.ElementStep(v, Err)
        else if cfg.useDataURI then
          if read.None? || read.value == "" then CS.ElementStep(v, Err)
          else CS.ElementStep(Some(SetNewImgPath(v.value, read.value, src.value)), Ok(()))
        else CS.ElementStep(Some(SetNewImgPath(v.value, cfg.getUrl(name), src.value)), Ok(()))
  }

  /** `ImgCache.clearCache`: silent when not loaded; a failed removal calls the
      error callback; after a removal the folder is recreated by
      `_createCacheDir`, which calls the success callback only if that works. */
  function ClearCache(st: Store, removeOk: bool, recreateOk: bool): (r: Step<()>)
    ensures !Loaded(st) ==> r == Step(st, NoReply)
    ensures Loaded(st) && !removeOk ==> r == Step(st, Err)
    ensures Loaded(st) && removeOk ==> r.store.files == {} && Loaded(r.store)
    ensures r.reply.Ok? <==> Loaded(st) && removeOk && recreateOk
  {
    if !Loaded(st) then Step(st, NoReply)
    else if !removeOk then Step(st, Err)
    else CreateCacheDir(st.(files := {}), recreateOk)
  }

  /** `ImgCache.cacheBackground`: not gated itself; `/\((.+)\)/` on the
      background, quotes kept, then `cacheFile`. A background the expression
      does not match throws. */
  function CacheBackground(cfg: Config, st: Store, backgroundImage: string, t: Transfer): (r: Step<()>)
    ensures LegacyBackgroundURL(backgroundImage).None? ==> r == Step(st, Throws)
    ensures (LegacyBackgroundURL(backgroundImage).Some?
             ==> r == CacheFile(cfg, st, LegacyBackgroundURL(backgroundImage).value, t))
  {
    match LegacyBackgroundURL(backgroundImage)
    case None => Step(st, Throws)
    case Some(u) => CacheFile(cfg, st, u, t)
  }

  /** `ImgCache.useCachedBackground` as written: on a hit with a data URI that
      was read, it calls `_setNewImgPath($img, …)` with no `$img` in scope; the
      ReferenceError is thrown inside the reader callback, so neither callback
      runs and the background is untouched. With file URLs the background
      becomes `url(<file URL>)`. */
  function UseCachedBackground(cfg: Config, st: Store, v: Option<ElementView>, read: Option<string>): (r: CS.ElementStep)
    ensures !Loaded(st) || v.None? ==> r == CS.ElementStep(v, NoReply)
    ensures !r.reply.Ok? ==> r.element == v
    ensures r.reply.Ok? ==> !cfg.useDataURI
  {
    if !Loaded(st) || v.None? then CS.ElementStep(v, NoReply)
    else
      match LegacyBackgroundURL(v.value.backgroundImage)
      case None => CS.ElementStep(v, Throws)
      case Some(u) =>
        var name := CachedFileName(cfg.hash, u);
        if name !in st.files then CS.ElementStep(v, Err)
        else if cfg.useDataURI then
          if read.None? || read.value == "" then CS.ElementStep(v, Err)
          else CS.ElementStep(v, Uncaught)
        else CS.ElementStep(Some(v.value.SetBackground("url(" + cfg.getUrl(name) + ")")), Ok(()))
  }

  /** `useCachedBackground` as evidently intended: a data URI that was read
      becomes the background, as a file URL does. */
  function UseCachedBackgroundCorrected(cfg: Config, st: Store, v: Option<ElementView>, read: Option<string>)
    : (r: CS.ElementStep)
    ensures !Loaded(st) || v.None? ==> r == CS.ElementStep(v, NoReply)
    ensures !r.reply.Ok? ==> r.element == v
    ensures (r.reply.Ok? ==> (v.Some? && LegacyBackgroundURL(v.value.backgroundImage).Some?
      && CachedFileName(cfg.hash, LegacyBackgroundURL(v.value.backgroundImage).value) in st.files))
  {
    if !Loaded(st) || v.None? then CS.ElementStep(v, NoReply)
    else
      match LegacyBackgroundURL(v.value.backgroundImage)
      case None => CS.ElementStep(v, Throws)
      case Some(u) =>
        var name := CachedFileName(cfg.hash, u);
        if name !in st.files then CS.ElementStep(v, Err)
        else
          var newUrl := if cfg.useDataURI then read else Some(cfg.getUrl(name));
          if newUrl.None? || (cfg.useDataURI && newUrl.value == "") then CS.ElementStep(v, Err)
          else CS.ElementStep(Some(v.value.SetBackground("url(" + newUrl.value + ")")), Ok(()))
  }
}
