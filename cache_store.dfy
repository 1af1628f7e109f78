/**
 * The cache of `lib/imgcache.js` as a state machine: the cache folder (file
 * name to size), the handles that say the cache is loaded, and the size counter
 * kept in `localStorage`. Each public operation is a function from the state and
 * the outcome of the platform calls it makes (download, removal, directory
 * creation, file read) to the new state and the reply its caller sees.
 */
module CacheStore {
  import opened Wrappers
  import opened JsStrings
  import opened NumberText
  import opened CacheKeys
  import opened Dom
  import opened BackgroundUrl
  import opened Callbacks

  /** The options and overridables an instance is configured with. `toUrl` is
      `entry.toURL()` and `getUrl` is `Helpers.EntryGetURL(entry)` of the file of
      a given name in the cache folder; both depend on the platform. */
  datatype Config = Config(
    localCacheFolder: string,
    useDataURI: bool,
    cacheClearSize: real,
    skipURIencoding: bool,
    hash: Hash,
    toUrl: string -> string,
    getUrl: string -> string)

  /** `attributes.filesystem` and `attributes.dirEntry` (set or not), `ready`,
      the files of the cache folder with their sizes, `localStorage`, and
      whether `localStorage` accepts writes. */
  datatype Store = Store(
    filesystem: bool,
    dirEntry: bool,
    ready: bool,
    dir: map<string, nat>,
    storage: map<string, string>,
    storageAvailable: bool)

  /** `Private.isImgCacheLoaded`. */
  predicate Loaded(st: Store) {
    st.filesystem && st.dirEntry
  }

  /** The `localStorage` key of the size counter. */
  function CounterKey(cfg: Config): string {
    "imgcache:" + cfg.localCacheFolder
  }

  /** `ImgCache.getCurrentSize`: 0 without storage or without a counter, otherwise
      the counter read back with `parseInt`. */
  function GetCurrentSize(cfg: Config, st: Store): (r: Num)
    ensures !st.storageAvailable || CounterKey(cfg) !in st.storage ==> r == Finite(0)
  {
    if st.storageAvailable && CounterKey(cfg) in st.storage then ParseInt(st.storage[CounterKey(cfg)])
    else Finite(0)
  }

  /** `Private.setCurrentSize`: writes `String(n)` under the counter key when
      storage is available; nothing else changes. */
  function SetCurrentSize(cfg: Config, st: Store, n: Num): (r: Store)
    ensures r.storageAvailable ==> GetCurrentSize(cfg, r) == n
    ensures !st.storageAvailable ==> r == st
    ensures r.filesystem == st.filesystem && r.dirEntry == st.dirEntry && r.ready == st.ready
    ensures r.dir == st.dir && r.storageAvailable == st.storageAvailable
    ensures forall k :: k != CounterKey(cfg) ==> (k in r.storage <==> k in st.storage)
    ensures forall k :: k != CounterKey(cfg) && k in st.storage ==> r.storage[k] == st.storage[k]
  {
    if st.storageAvailable then
      ParseIntNumberToString(n);
      st.(storage := st.storage[CounterKey(cfg) := NumberToString(n)])
    else st
  }

  /** JavaScript `+` on two numbers: NaN absorbs. */
  function Plus(a: Num, b: Num): (r: Num)
    ensures r.NaN? <==> a.NaN? || b.NaN?
    ensures r.Finite? ==> r.value == a.value + b.value
  {
    if a.NaN? || b.NaN? then NaN else Finite(a.value + b.value)
  }

  /** The name of the file that holds `src` (already sanitized) in the cache
      folder, if it is there. */
  function Find(cfg: Config, st: Store, src: Option<string>): (r: Option<string>)
    ensures r.Some? ==> src.Some? && src.value != "" && r == GetCachedFileName(cfg.hash, src.value)
    ensures r.Some? <==> src.Some? && src.value != "" && GetCachedFileName(cfg.hash, src.value).value in st.dir
  {
    if src.Some? && src.value != "" && GetCachedFileName(cfg.hash, src.value).value in st.dir
    then GetCachedFileName(cfg.hash, src.value)
    else None
  }

  /** The outcome of the download of a file: success, with the size that
      `getMetadata` reports if it reports one, or failure. */
  datatype Transfer = Downloaded(size: nat, sizeReported: bool) | TransferFailed

  /** A new state and the reply of the call that produced it. */
  datatype Step<T> = Step(store: Store, reply: Reply<T>)

  /** `ImgCache.cacheFile`: silent when the cache is not loaded or the source is
      empty; otherwise the sanitized source is downloaded into its file, which is
      overwritten, the counter grows by the reported size, and the success
      callback receives the file's URL. */
  function CacheFile(cfg: Config, st: Store, src: string, t: Transfer): (r: Step<string>)
    ensures !Loaded(st) || src == "" ==> r == Step(st, NoReply)
    ensures r.reply.Ok? ==> t.Downloaded? && Loaded(st) && src != ""
    ensures r.store.filesystem == st.filesystem && r.store.dirEntry == st.dirEntry
    ensures r.store.ready == st.ready && r.store.storageAvailable == st.storageAvailable
  {
    if !Loaded(st) || src == "" then Step(st, NoReply)
    else
      var name := GetCachedFileName(cfg.hash, SanitizeURI(cfg.skipURIencoding, src));
      if name.None? || t.TransferFailed? then Step(st, Err)
      else Step(StoreDownload(cfg, st, name.value, t.size, t.sizeReported), Ok(cfg.toUrl(name.value)))
  }

  /** The state once the file `name` is downloaded: the folder holds it with its
      size, and a size that `getMetadata` reports is added to the counter (as
      the decimal text `parseInt` reads back). */
  function StoreDownload(cfg: Config, st: Store, name: string, size: nat, sizeReported: bool): (r: Store)
    ensures r == st.(dir := st.dir[name := size], storage := r.storage)
    ensures !sizeReported ==> r.storage == st.storage
  {
    var st1 := st.(dir := st.dir[name := size]);
    if sizeReported
    then SetCurrentSize(cfg, st1, Plus(GetCurrentSize(cfg, st1), ParseInt(NumberToString(Finite(size)))))
    else st1
  }

  /** What the response callback of `getCachedFile` receives: the source and the
      file found (null on a miss). */
  datatype Lookup = Lookup(src: Option<string>, entry: Option<string>)

  /** `ImgCache.getCachedFile`: silent when not loaded; a missing source throws
      in `sanitizeURI` unless encoding is skipped. A hit answers with the
      sanitized source and the file; a miss with the source as given and null. */
  function GetCachedFile(cfg: Config, st: Store, src: Option<string>): (r: Reply<Lookup>)
    ensures !Loaded(st) ==> r.NoReply?
    ensures r.Ok? && r.value.entry.Some? ==> (src.Some?
      && r.value.src == Some(SanitizeURI(cfg.skipURIencoding, src.value))
      && r.value.entry == GetCachedFileName(cfg.hash, SanitizeURI(cfg.skipURIencoding, src.value))
      && r.value.entry.value in st.dir)
    ensures r.Ok? && r.value.entry.None? ==> r.value.src == src
  {
    if !Loaded(st) then NoReply
    else if src.None? && !cfg.skipURIencoding then Throws
    else
      var s := if src.Some? then Some(SanitizeURI(cfg.skipURIencoding, src.value)) else None;
      var found := Find(cfg, st, s);
      if found.Some? then Ok(Lookup(s, found)) else Ok(Lookup(src, None))
  }

  /** `ImgCache.isCached`: the response callback receives the source and whether
      a file was found. */
  function IsCached(cfg: Config, st: Store, src: Option<string>): (r: Reply<(Option<string>, bool)>)
    ensures r.Ok? <==> GetCachedFile(cfg, st, src).Ok?
    ensures r.Ok? ==> r.value.1 == GetCachedFile(cfg, st, src).value.entry.Some?
    ensures r.NoReply? <==> !Loaded(st)
  {
    match GetCachedFile(cfg, st, src)
    case Ok(l) => Ok((l.src, l.entry.Some?))
    case NoReply => NoReply
    case Throws => Throws
    case Err => Err
    case Uncaught => Uncaught
  }

  /** `ImgCache.getCachedFileURL`: the success callback receives the source and
      the file's URL; on a miss the error callback is called. */
  function GetCachedFileURL(cfg: Config, st: Store, src: Option<string>): (r: Reply<(Option<string>, string)>)
    ensures r.Ok? <==> GetCachedFile(cfg, st, src).Ok? && GetCachedFile(cfg, st, src).value.entry.Some?
    ensures r.Ok? ==> r.value.1 == cfg.getUrl(GetCachedFile(cfg, st, src).value.entry.value)
    ensures r.Err? <==> GetCachedFile(cfg, st, src).Ok? && GetCachedFile(cfg, st, src).value.entry.None?
  {
    match GetCachedFile(cfg, st, src)
    case Ok(l) => if l.entry.Some? then Ok((l.src, cfg.getUrl(l.entry.value))) else Err
    case NoReply => NoReply
    case Throws => Throws
    case Err => Err
    case Uncaught => Uncaught
  }

  /** `ImgCache.removeFile`: not gated, so it throws when there is no file
      system; the file of the sanitized source is removed if it is there and the
      removal succeeds. The counter is left as it is. */
  function RemoveFile(cfg: Config, st: Store, src: string, removeOk: bool): (r: Step<()>)
    ensures !st.filesystem ==> r == Step(st, Throws)
    ensures r.reply.Ok? <==> (st.filesystem && removeOk
      && Find(cfg, st, Some(SanitizeURI(cfg.skipURIencoding, src))).Some?)
    ensures r.store == st.(dir := r.store.dir)
    ensures r.reply.Ok? ==> r.store.dir == st.dir - {Find(cfg, st, Some(SanitizeURI(cfg.skipURIencoding, src))).value}
    ensures !r.reply.Ok? ==> r.store == st
  {
    if !st.filesystem then Step(st, Throws)
    else
      var found := Find(cfg, st, Some(SanitizeURI(cfg.skipURIencoding, src)));
      if found.None? || !removeOk then Step(st, Err)
      else Step(st.(dir := st.dir - {found.value}), Ok(()))
  }

  /** `Private.createCacheDir` once a file system is there: opens (or creates)
      the cache folder and marks the cache ready. */
  function CreateCacheDir(st: Store, dirOk: bool): (r: Step<()>)
    requires st.filesystem
    ensures r.reply.Ok? <==> dirOk
    ensures dirOk ==> r.store == st.(dirEntry := true, ready := true)
    ensures !dirOk ==> r == Step(st, Err)
  {
    if dirOk then Step(st.(dirEntry := true, ready := true), Ok(())) else Step(st, Err)
  }

  /** `ImgCache.clearCache`: silent when not loaded; removes the folder with all
      its files, resets the counter to 0 and recreates the folder. */
  function ClearCache(cfg: Config, st: Store, removeOk: bool, recreateOk: bool): (r: Step<()>)
    ensures !Loaded(st) ==> r == Step(st, NoReply)
    ensures Loaded(st) && !removeOk ==> r == Step(st, Err)
    ensures Loaded(st) && removeOk ==> (r.store.dir == map[]
      && (st.storageAvailable ==> GetCurrentSize(cfg, r.store) == Finite(0)))
    ensures r.reply.Ok? <==> Loaded(st) && removeOk && recreateOk
    ensures Loaded(r.store) == Loaded(st) && r.store.storageAvailable == st.storageAvailable
  {
    if !Loaded(st) then Step(st, NoReply)
    else if !removeOk then Step(st, Err)
    else
      var st1 := SetCurrentSize(cfg, st.(dir := map[]), Finite(0));
      CreateCacheDir(st1, recreateOk)
  }

  /** The eviction test of `init`: a positive `cacheClearSize` (in megabytes) and
      a counter strictly above it. A NaN counter never passes. */
  predicate OverLimit(cfg: Config, size: Num) {
    cfg.cacheClearSize > 0.0 && size.Finite? && size.value as real > cfg.cacheClearSize * 1024.0 * 1024.0
  }

  /** The outcomes of the platform calls `init` makes: opening the file system,
      opening the cache folder, and removing and recreating the folder when the
      counter is over the limit. */
  datatype InitOutcome = InitOutcome(fsOk: bool, dirOk: bool, removeOk: bool, recreateOk: bool)

  /** `ImgCache.init`: opens the file system and the cache folder, then clears the
      cache if it is over the limit. The success callback is called once the
      folder is open, whether or not the clearing succeeds. */
  function Init(cfg: Config, st: Store, fsOk: bool, dirOk: bool, removeOk: bool, recreateOk: bool): (r: Step<()>)
    ensures r.reply.Ok? <==> fsOk && dirOk
    ensures !r.reply.Ok? ==> r.reply.Err?
    ensures fsOk && dirOk ==> Loaded(r.store) && r.store.ready
    ensures fsOk && dirOk && !OverLimit(cfg, GetCurrentSize(cfg, st)) ==> r.store.dir == st.dir
    ensures fsOk && dirOk && OverLimit(cfg, GetCurrentSize(cfg, st)) && removeOk ==> r.store.dir == map[]
  {
    if !fsOk then Step(st, Err)
    else
      var withDir := CreateCacheDir(st.(filesystem := true), dirOk);
      if !dirOk then withDir
      else if OverLimit(cfg, GetCurrentSize(cfg, withDir.store)) then
        var cleared := ClearCache(cfg, withDir.store, removeOk, recreateOk);
        Step(cleared.store.(ready := true), Ok(()))
      else withDir
  }

  /** `Private.setNewImgPath`. */
  function SetNewImgPath(v: ElementView, newSrc: string, oldSrc: string): (r: ElementView)
    ensures r.Get(SrcAttr) == Some(newSrc) && r.Get(OldSrcAttr) == Some(oldSrc)
    ensures forall n :: n != SrcAttr && n != OldSrcAttr ==> r.Get(n) == v.Get(n)
    ensures r.backgroundImage == v.backgroundImage
  {
    v.Set(SrcAttr, newSrc).Set(OldSrcAttr, oldSrc)
  }

  /** `Private.setBackgroundImagePath`. */
  function SetBackgroundImagePath(v: ElementView, newSrc: string, oldSrc: string): (r: ElementView)
    ensures r.backgroundImage == "url(\"" + newSrc + "\")" && r.Get(OldBackgroundAttr) == Some(oldSrc)
    ensures forall n :: n != OldBackgroundAttr ==> r.Get(n) == v.Get(n)
  {
    v.SetBackground("url(\"" + newSrc + "\")").Set(OldBackgroundAttr, oldSrc)
  }

  /** `ImgCache.useOnlineFile`: silent when not loaded or without an element;
      otherwise `src` gets back the remembered source if it is set and
      non-empty, and the remembered source is removed. */
  function UseOnlineFile(st: Store, v: Option<ElementView>): (r: Option<ElementView>)
    ensures !Loaded(st) || v.None? ==> r == v
    ensures Loaded(st) && v.Some? ==> (r.Some? && r.value.Get(OldSrcAttr).None?
      && r.value.Get(SrcAttr) == (if v.value.Truthy(OldSrcAttr) then v.value.Get(OldSrcAttr) else v.value.Get(SrcAttr))
      && (forall n :: n != SrcAttr && n != OldSrcAttr ==> r.value.Get(n) == v.value.Get(n))
      && r.value.backgroundImage == v.value.backgroundImage)
  {
    if !Loaded(st) || v.None? then v
    else
      var e := v.value;
      var restored := if e.Truthy(OldSrcAttr) then e.Set(SrcAttr, e.attrs[OldSrcAttr]) else e;
      Some(restored.Remove(OldSrcAttr))
  }

  /** `ImgCache.useBackgroundOnlineFile`: not gated; without an element nothing
      happens; otherwise the background gets back `url("<remembered>")` if that is
      set and non-empty, and the remembered URL is removed. */
  function UseBackgroundOnlineFile(v: Option<ElementView>): (r: Option<ElementView>)
    ensures v.None? ==> r.None?
    ensures v.Some? ==> (r.Some? && r.value.Get(OldBackgroundAttr).None?
      && r.value.backgroundImage == (if v.value.Truthy(OldBackgroundAttr)
                                     then "url(\"" + v.value.attrs[OldBackgroundAttr] + "\")"
                                     else v.value.backgroundImage)
      && (forall n :: n != OldBackgroundAttr ==> r.value.Get(n) == v.value.Get(n)))
  {
    if v.None? then None
    else
      var e := v.value;
      var restored := if e.Truthy(OldBackgroundAttr)
        then e.SetBackground("url(\"" + e.attrs[OldBackgroundAttr] + "\")") else e;
      Some(restored.Remove(OldBackgroundAttr))
  }

  /** The `set_path_callback` handed to `loadCachedFile`: `setNewImgPath`,
      `setBackgroundImagePath` bound to the cache, or `setBackgroundImagePath`
      passed without a receiver (in strict mode it then throws on `this`). */
  datatype Setter = ImgSetter | BackgroundSetter | UnboundBackgroundSetter

  /** An element (or none) and the reply of the call that changed it. */
  datatype ElementStep = ElementStep(element: Option<ElementView>, reply: Reply<()>)

  /** `Private.loadCachedFile`: silent when not loaded or without an element. On
      a miss the error callback runs and the element is untouched. On a hit the
      element is pointed at the cached file: at its data URI (`read`, the result
      of reading it; `None` when the read fails) or at its URL. */
  function LoadCachedFile(cfg: Config, st: Store, v: Option<ElementView>, imgSrc: Option<string>,
                          setter: Setter, read: Option<string>): (r: ElementStep)
    ensures !Loaded(st) || v.None? ==> r == ElementStep(v, NoReply)
    ensures Loaded(st) && v.Some? && Find(cfg, st, imgSrc).None? ==> r == ElementStep(v, Err)
    ensures !r.reply.Ok? ==> r.element == v
    ensures r.reply.Ok? ==> setter != UnboundBackgroundSetter && Find(cfg, st, imgSrc).Some?
    ensures r.element.Some? <==> v.Some?
    ensures (Loaded(st) && v.Some? && Find(cfg, st, imgSrc).Some? && !cfg.useDataURI && setter != UnboundBackgroundSetter
             ==> r.reply.Ok?)
  {
    if !Loaded(st) || v.None? then ElementStep(v, NoReply)
    else PointAtFile(cfg, v.value, imgSrc, Find(cfg, st, imgSrc), setter, read)
  }

  /** The rest of `loadCachedFile` once the lookup of `imgSrc` gave `found`. */
  function PointAtFile(cfg: Config, v: ElementView, imgSrc: Option<string>, found: Option<string>,
                       setter: Setter, read: Option<string>): (r: ElementStep)
    requires found.Some? ==> imgSrc.Some?
    ensures found.None? ==> r == ElementStep(Some(v), Err)
    ensures !r.reply.Ok? ==> r.element == Some(v)
    ensures r.reply.Ok? ==> setter != UnboundBackgroundSetter && found.Some?
    ensures r.element.Some?
    ensures (found.Some? && setter != UnboundBackgroundSetter
             ==> (r.reply.Ok? <==> !cfg.useDataURI || (read.Some? && read.value != "")))
    ensures found.Some? && cfg.useDataURI && (read.None? || read.value == "") ==> r.reply == Err
    ensures (found.Some? && setter == UnboundBackgroundSetter && (!cfg.useDataURI || (read.Some? && read.value != ""))
             ==> r.reply == Uncaught)
  {
    if found.None? then ElementStep(Some(v), Err)
    else
      var newUrl := if cfg.useDataURI then read else Some(cfg.getUrl(found.value));
      if newUrl.None? || (cfg.useDataURI && newUrl.value == "") then ElementStep(Some(v), Err)
      else
        match setter
        case ImgSetter => ElementStep(Some(SetNewImgPath(v, newUrl.value, imgSrc.value)), Ok(()))
        case BackgroundSetter => ElementStep(Some(SetBackgroundImagePath(v, newUrl.value, imgSrc.value)), Ok(()))
        case UnboundBackgroundSetter => ElementStep(Some(v), Uncaught)
  }

  /** `ImgCache.useCachedFile`: looks up the element's sanitized `src`. Without
      an element, or without a `src` when encoding is not skipped, it throws. */
  function UseCachedFile(cfg: Config, st: Store, v: Option<ElementView>, read: Option<string>): (r: ElementStep)
    ensures !Loaded(st) ==> r == ElementStep(v, NoReply)
    ensures Loaded(st) && v.None? ==> r == ElementStep(v, Throws)
    ensures !r.reply.Ok? ==> r.element == v
    ensures r.element.Some? <==> v.Some?
    ensures r.reply.Ok? ==> (v.Some? && v.value.Get(SrcAttr).Some?
      && Find(cfg, st, Some(SanitizeURI(cfg.skipURIencoding, v.value.attrs[SrcAttr]))).Some?)
  {
    if !Loaded(st) then ElementStep(v, NoReply)
    else if v.None? then ElementStep(v, Throws)
    else
      var src := v.value.Get(SrcAttr);
      if src.None? && !cfg.skipURIencoding then ElementStep(v, Throws)
      else
        var imgUrl := if src.Some? then Some(SanitizeURI(cfg.skipURIencoding, src.value)) else None;
        LoadCachedFile(cfg, st, v, imgUrl, ImgSetter, read)
  }

  /** `ImgCache.useCachedFileWithSource`: as `useCachedFile`, with the source given. */
  function UseCachedFileWithSource(cfg: Config, st: Store, v: Option<ElementView>, imageUrl: Option<string>,
                                   read: Option<string>): (r: ElementStep)
    ensures !Loaded(st) ==> r == ElementStep(v, NoReply)
    ensures !r.reply.Ok? ==> r.element == v
    ensures r.reply.Ok? ==> (imageUrl.Some?
      && Find(cfg, st, Some(SanitizeURI(cfg.skipURIencoding, imageUrl.value))).Some?)
  {
    if !Loaded(st) then ElementStep(v, NoReply)
    else if imageUrl.None? && !cfg.skipURIencoding then ElementStep(v, Throws)
    else
      var imgUrl := if imageUrl.Some? then Some(SanitizeURI(cfg.skipURIencoding, imageUrl.value)) else None;
      LoadCachedFile(cfg, st, v, imgUrl, ImgSetter, read)
  }

  /** `ImgCache.cacheBackground`: caches the URL of the element's background; the
      error callback runs when there is none, and a background the expression
      does not match throws. */
  function CacheBackground(cfg: Config, st: Store, v: ElementView, t: Transfer): (r: Step<string>)
    ensures !Loaded(st) ==> r == Step(st, NoReply)
    ensures Loaded(st) && GetBackgroundImageURL(v).Url? && GetBackgroundImageURL(v).url != ""
            ==> r == CacheFile(cfg, st, GetBackgroundImageURL(v).url, t)
    ensures !(GetBackgroundImageURL(v).Url? && GetBackgroundImageURL(v).url != "") ==> r.store == st
  {
    if !Loaded(st) then Step(st, NoReply)
    else
      match GetBackgroundImageURL(v)
      case NoProperty => Step(st, Err)
      case NoMatch => Step(st, Throws)
      case Url(u) => if u == "" then Step(st, Err) else CacheFile(cfg, st, u, t)
  }

  /** `ImgCache.useCachedBackground` as written: it looks up the background URL
      without sanitizing it, and passes `setBackgroundImagePath` unbound. */
  function UseCachedBackground(cfg: Config, st: Store, v: ElementView, read: Option<string>): (r: ElementStep)
    ensures !Loaded(st) ==> r == ElementStep(Some(v), NoReply)
    ensures r.element == Some(v)
    ensures !r.reply.Ok?
  {
    if !Loaded(st) then ElementStep(Some(v), NoReply)
    else
      match GetBackgroundImageURL(v)
      case NoProperty => ElementStep(Some(v), Err)
      case NoMatch => ElementStep(Some(v), Throws)
      case Url(u) =>
        if u == "" then ElementStep(Some(v), Err)
        else LoadCachedFile(cfg, st, Some(v), Some(u), UnboundBackgroundSetter, read)
  }

  /** `useCachedBackground` as evidently intended: the lookup uses the sanitized
      URL, as `cacheBackground` stored it, and the setter is bound. */
  function UseCachedBackgroundCorrected(cfg: Config, st: Store, v: ElementView, read: Option<string>): (r: ElementStep)
    ensures !Loaded(st) ==> r == ElementStep(Some(v), NoReply)
    ensures !r.reply.Ok? ==> r.element == Some(v)
    ensures r.element.Some?
    ensures r.reply.Ok? ==> (GetBackgroundImageURL(v).Url?
      && Find(cfg, st, Some(SanitizeURI(cfg.skipURIencoding, GetBackgroundImageURL(v).url))).Some?)
  {
    if !Loaded(st) then ElementStep(Some(v), NoReply)
    else
      match GetBackgroundImageURL(v)
      case NoProperty => ElementStep(Some(v), Err)
      case NoMatch => ElementStep(Some(v), Throws)
      case Url(u) =>
        if u == "" then ElementStep(Some(v), Err)
        else LoadCachedFile(cfg, st, Some(v), Some(SanitizeURI(cfg.skipURIencoding, u)), BackgroundSetter, read)
  }

  /** `ImgCache.useCachedBackgroundWithSource`: looks up the given URL unsanitized,
      with the unbound setter. */
  function UseCachedBackgroundWithSource(cfg: Config, st: Store, v: Option<ElementView>, imageUrl: Option<string>,
                                         read: Option<string>): (r: ElementStep)
    ensures r.element == v
    ensures !r.reply.Ok?
  {
    if !Loaded(st) then ElementStep(v, NoReply)
    else LoadCachedFile(cfg, st, v, imageUrl, UnboundBackgroundSetter, read)
  }

  /** `ImgCache.isBackgroundCached`: `isCached` of the background URL; an
      element without a background asks about an undefined source. */
  function IsBackgroundCached(cfg: Config, st: Store, v: ElementView): (r: Reply<(Option<string>, bool)>)
    ensures GetBackgroundImageURL(v).NoMatch? ==> r.Throws?
    ensures GetBackgroundImageURL(v).Url? ==> r == IsCached(cfg, st, Some(GetBackgroundImageURL(v).url))
    ensures GetBackgroundImageURL(v).NoProperty? ==> r == IsCached(cfg, st, None)
  {
    match GetBackgroundImageURL(v)
    case NoMatch => Throws
    case NoProperty => IsCached(cfg, st, None)
    case Url(u) => IsCached(cfg, st, Some(u))
  }
}
