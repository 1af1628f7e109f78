/**
 * The `ImgCache` object of `lib/imgcache.js` with the state it updates in place:
 * `attributes.filesystem` / `attributes.dirEntry`, `ready`, the cache folder,
 * `localStorage` and the memo of `Private.hasLocalStorage`. Each method does
 * what its JavaScript counterpart does, step by step, and is proved to land in
 * the state, and give the reply, of the matching function of `CacheStore`.
 */
module ImgCacheLib {
  import opened Wrappers
  import opened NumberText
  import opened CacheKeys
  import opened Dom
  import opened BackgroundUrl
  import opened Callbacks
  import CS = CacheStore

  class ImgCache {
    const cfg: CS.Config
    var filesystem: bool
    var dirEntry: bool
    var ready: bool
    var dir: map<string, nat>
    var storage: map<string, string>
    /** Whether `localStorage` accepts writes on this platform. */
    const storageAvailable: bool
    /** `Private.attributes.hasLocalStorage`: set once a probe write succeeded. */
    var storageProbed: bool

    function State(): CS.Store
      reads this
    {
      CS.Store(filesystem, dirEntry, ready, dir, storage, storageAvailable)
    }

    /** The memo only ever records a successful probe. */
    predicate Valid()
      reads this
    {
      storageProbed ==> storageAvailable
    }

    /** A fresh cache: nothing opened, an empty folder, the given `localStorage`. */
    constructor (cfg: CS.Config, storage: map<string, string>, storageAvailable: bool)
      ensures Valid() && !storageProbed
      ensures State() == CS.Store(false, false, false, map[], storage, storageAvailable)
      ensures this.cfg == cfg
    {
      this.cfg := cfg;
      filesystem := false;
      dirEntry := false;
      ready := false;
      dir := map[];
      this.storage := storage;
      this.storageAvailable := storageAvailable;
      storageProbed := false;
    }

    /** `Private.isImgCacheLoaded`. */
    function IsImgCacheLoaded(): (r: bool)
      reads this
      ensures r <==> CS.Loaded(State())
    {
      filesystem && dirEntry
    }

    /** `Private.hasLocalStorage`: answers from the memo once a probe succeeded,
        otherwise probes (the probe's write and removal leave `localStorage` as it
        was) and remembers a success. */
    method HasLocalStorage() returns (r: bool)
      requires Valid()
      modifies this
      ensures Valid() && State() == old(State())
      ensures r == storageAvailable
      ensures storageProbed == (old(storageProbed) || storageAvailable)
    {
      if storageProbed {
        return true;
      }
      if storageAvailable {
        storageProbed := true;
        return true;
      }
      return false;
    }

    /** `Private.setCurrentSize`. */
    method SetCurrentSize(n: Num)
      requires Valid()
      modifies this
      ensures Valid() && State() == CS.SetCurrentSize(cfg, old(State()), n)
    {
      var ok := HasLocalStorage();
      if ok {
        storage := storage[CS.CounterKey(cfg) := NumberToString(n)];
      }
    }

    /** `ImgCache.getCurrentSize`. */
    method GetCurrentSize() returns (r: Num)
      requires Valid()
      modifies this
      ensures Valid() && State() == old(State())
      ensures r == CS.GetCurrentSize(cfg, State())
    {
      var ok := HasLocalStorage();
      if !ok {
        return Finite(0);
      }
      var key := CS.CounterKey(cfg);
      if key !in storage {
        return Finite(0);
      }
      r := ParseInt(storage[key]);
    }

    /** `ImgCache.cacheFile`, with the outcome of the download given. */
    method CacheFile(src: string, t: CS.Transfer) returns (reply: Reply<string>)
      requires Valid()
      modifies this
      ensures Valid()
      ensures State() == CS.CacheFile(cfg, old(State()), src, t).store
      ensures reply == CS.CacheFile(cfg, old(State()), src, t).reply
    {
      if !IsImgCacheLoaded() || src == "" {
        return NoReply;
      }
      var name := GetCachedFileName(cfg.hash, SanitizeURI(cfg.skipURIencoding, src));
      if name.None? || t.TransferFailed? {
        return Err;
      }
      StoreDownload(name.value, t.size, t.sizeReported);
      reply := Ok(cfg.toUrl(name.value));
    }

    /** The download's success callback: writes the file into the folder and
        adds a reported size to the counter. */
    method StoreDownload(name: string, size: nat, sizeReported: bool)
      requires Valid()
      modifies this
      ensures Valid() && State() == CS.StoreDownload(cfg, old(State()), name, size, sizeReported)
    {
      dir := dir[name := size];
      if sizeReported {
        var current := GetCurrentSize();
        SetCurrentSize(CS.Plus(current, ParseInt(NumberToString(Finite(size)))));
      }
    }

    /** `ImgCache.getCachedFile`. */
    method GetCachedFile(src: Option<string>) returns (reply: Reply<CS.Lookup>)
      ensures reply == CS.GetCachedFile(cfg, State(), src)
    {
      if !IsImgCacheLoaded() {
        return NoReply;
      }
      if src.None? && !cfg.skipURIencoding {
        return Throws;
      }
      var sanitized := if src.Some? then Some(SanitizeURI(cfg.skipURIencoding, src.value)) else None;
      var found := CS.Find(cfg, State(), sanitized);
      if found.Some? {
        reply := Ok(CS.Lookup(sanitized, found));
      } else {
        reply := Ok(CS.Lookup(src, None));
      }
    }

    /** `ImgCache.isCached`. */
    method IsCached(src: Option<string>) returns (reply: Reply<(Option<string>, bool)>)
      ensures reply == CS.IsCached(cfg, State(), src)
    {
      var lookup := GetCachedFile(src);
      match lookup
      case Ok(l) => reply := Ok((l.src, l.entry.Some?));
      case NoReply => reply := NoReply;
      case Throws => reply := Throws;
      case Err => reply := Err;
      case Uncaught => reply := Uncaught;
    }

    /** `ImgCache.getCachedFileURL`. */
    method GetCachedFileURL(src: Option<string>) returns (reply: Reply<(Option<string>, string)>)
      ensures reply == CS.GetCachedFileURL(cfg, State(), src)
    {
      var lookup := GetCachedFile(src);
      match lookup
      case Ok(l) => reply := if l.entry.Some? then Ok((l.src, cfg.getUrl(l.entry.value))) else Err;
      case NoReply => reply := NoReply;
      case Throws => reply := Throws;
      case Err => reply := Err;
      case Uncaught => reply := Uncaught;
    }

    /** `ImgCache.removeFile`, with the outcome of the removal given. */
    method RemoveFile(src: string, removeOk: bool) returns (reply: Reply<()>)
      requires Valid()
      modifies this
      ensures Valid()
      ensures State() == CS.RemoveFile(cfg, old(State()), src, removeOk).store
      ensures reply == CS.RemoveFile(cfg, old(State()), src, removeOk).reply
    {
      ghost var r := CS.RemoveFile(cfg, State(), src, removeOk);
      if !filesystem {
        return Throws;
      }
      var found := CS.Find(cfg, State(), Some(SanitizeURI(cfg.skipURIencoding, src)));
      if found.None? || !removeOk {
        assert r == CS.Step(State(), Err);
        return Err;
      }
      assert r == CS.Step(State().(dir := dir - {found.value}), Ok(()));
      dir := dir - {found.value};
      reply := Ok(());
    }

    /** `Private.createCacheDir` once the file system is open. */
    method CreateCacheDir(dirOk: bool) returns (reply: Reply<()>)
      requires filesystem
      modifies this
      ensures storageProbed == old(storageProbed)
      ensures State() == CS.CreateCacheDir(old(State()), dirOk).store
      ensures reply == CS.CreateCacheDir(old(State()), dirOk).reply
    {
      if !dirOk {
        return Err;
      }
      dirEntry := true;
      ready := true;
      reply := Ok(());
    }

    /** `ImgCache.clearCache`, with the outcomes of the removal of the folder and
        of its recreation given. */
    method ClearCache(removeOk: bool, recreateOk: bool) returns (reply: Reply<()>)
      requires Valid()
      modifies this
      ensures Valid()
      ensures State() == CS.ClearCache(cfg, old(State()), removeOk, recreateOk).store
      ensures reply == CS.ClearCache(cfg, old(State()), removeOk, recreateOk).reply
    {
      if !IsImgCacheLoaded() {
        return NoReply;
      }
      if !removeOk {
        return Err;
      }
      dir := map[];
      SetCurrentSize(Finite(0));
      reply := CreateCacheDir(recreateOk);
    }

    /** `ImgCache.init`, with the outcomes of opening the file system and the
        folder and of the clearing that `_checkSize` may start. */
    method Init(fsOk: bool, dirOk: bool, removeOk: bool, recreateOk: bool) returns (reply: Reply<()>)
      requires Valid()
      modifies this
      ensures Valid()
      ensures State() == CS.Init(cfg, old(State()), fsOk, dirOk, removeOk, recreateOk).store
      ensures reply == CS.Init(cfg, old(State()), fsOk, dirOk, removeOk, recreateOk).reply
    {
      if !fsOk {
        return Err;
      }
      filesystem := true;
      reply := CreateCacheDir(dirOk);
      if !dirOk {
        return;
      }
      var size := GetCurrentSize();
      if CS.OverLimit(cfg, size) {
        var cleared := ClearCache(removeOk, recreateOk);
        ready := true;
      }
    }

    /** `ImgCache.useOnlineFile`. */
    method UseOnlineFile(e: Element?)
      modifies e
      ensures e != null ==> e.View() == CS.UseOnlineFile(State(), Some(old(e.View()))).value
    {
      if !IsImgCacheLoaded() || e == null {
        return;
      }
      var v := e.View();
      if v.Truthy(OldSrcAttr) {
        e.Assign(v.Set(SrcAttr, v.attrs[OldSrcAttr]));
      }
      e.Assign(e.View().Remove(OldSrcAttr));
    }

    /** `ImgCache.useBackgroundOnlineFile`. */
    method UseBackgroundOnlineFile(e: Element?)
      modifies e
      ensures e != null ==> e.View() == CS.UseBackgroundOnlineFile(Some(old(e.View()))).value
    {
      if e == null {
        return;
      }
      var v := e.View();
      if v.Truthy(OldBackgroundAttr) {
        e.Assign(v.SetBackground("url(\"" + v.attrs[OldBackgroundAttr] + "\")"));
      }
      e.Assign(e.View().Remove(OldBackgroundAttr));
    }

    /** `Private.loadCachedFile`, with the result of reading the file as a data
        URI given. */
    method LoadCachedFile(e: Element, imgSrc: Option<string>, setter: CS.Setter, read: Option<string>)
      returns (reply: Reply<()>)
      modifies e
      ensures (CS.ElementStep(Some(e.View()), reply)
               == CS.LoadCachedFile(cfg, State(), Some(old(e.View())), imgSrc, setter, read))
    {
      var r := CS.LoadCachedFile(cfg, State(), Some(e.View()), imgSrc, setter, read);
      if r.reply.Ok? {
        e.Assign(r.element.value);
      }
      reply := r.reply;
    }

    /** `ImgCache.useCachedFile`. */
    method UseCachedFile(e: Element?, read: Option<string>) returns (reply: Reply<()>)
      modifies e
      ensures e == null ==> reply == CS.UseCachedFile(cfg, State(), None, read).reply
      ensures (e != null ==> CS.ElementStep(Some(e.View()), reply)
                             == CS.UseCachedFile(cfg, State(), Some(old(e.View())), read))
    {
      if !IsImgCacheLoaded() {
        return NoReply;
      }
      if e == null {
        return Throws;
      }
      var src := e.View().Get(SrcAttr);
      if src.None? && !cfg.skipURIencoding {
        return Throws;
      }
      var imgUrl := if src.Some? then Some(SanitizeURI(cfg.skipURIencoding, src.value)) else None;
      reply := LoadCachedFile(e, imgUrl, CS.ImgSetter, read);
    }

    /** `ImgCache.useCachedFileWithSource`. */
    method UseCachedFileWithSource(e: Element, imageUrl: Option<string>, read: Option<string>)
      returns (reply: Reply<()>)
      modifies e
      ensures (CS.ElementStep(Some(e.View()), reply)
               == CS.UseCachedFileWithSource(cfg, State(), Some(old(e.View())), imageUrl, read))
    {
      if !IsImgCacheLoaded() {
        return NoReply;
      }
      if imageUrl.None? && !cfg.skipURIencoding {
        return Throws;
      }
      var imgUrl := if imageUrl.Some? then Some(SanitizeURI(cfg.skipURIencoding, imageUrl.value)) else None;
      reply := LoadCachedFile(e, imgUrl, CS.ImgSetter, read);
    }

    /** `ImgCache.cacheBackground`, with the outcome of the download given. */
    method CacheBackground(e: Element, t: CS.Transfer) returns (reply: Reply<string>)
      requires Valid()
      modifies this
      ensures Valid()
      ensures State() == CS.CacheBackground(cfg, old(State()), e.View(), t).store
      ensures reply == CS.CacheBackground(cfg, old(State()), e.View(), t).reply
    {
      if !IsImgCacheLoaded() {
        return NoReply;
      }
      match GetBackgroundImageURL(e.View())
      case NoProperty => reply := Err;
      case NoMatch => reply := Throws;
      case Url(u) =>
        if u == "" {
          reply := Err;
        } else {
          reply := CacheFile(u, t);
        }
    }

    /** `ImgCache.useCachedBackground` as written. */
    method UseCachedBackground(e: Element, read: Option<string>) returns (reply: Reply<()>)
      modifies e
      ensures (CS.ElementStep(Some(e.View()), reply)
               == CS.UseCachedBackground(cfg, State(), old(e.View()), read))
    {
      if !IsImgCacheLoaded() {
        return NoReply;
      }
      match GetBackgroundImageURL(e.View())
      case NoProperty => reply := Err;
      case NoMatch => reply := Throws;
      case Url(u) =>
        if u == "" {
          reply := Err;
        } else {
          reply := LoadCachedFile(e, Some(u), CS.UnboundBackgroundSetter, read);
        }
    }

    /** `ImgCache.useCachedBackgroundWithSource` as written. */
    method UseCachedBackgroundWithSource(e: Element, imageUrl: Option<string>, read: Option<string>)
      returns (reply: Reply<()>)
      modifies e
      ensures (CS.ElementStep(Some(e.View()), reply)
               == CS.UseCachedBackgroundWithSource(cfg, State(), Some(old(e.View())), imageUrl, read))
    {
      if !IsImgCacheLoaded() {
        return NoReply;
      }
      reply := LoadCachedFile(e, imageUrl, CS.UnboundBackgroundSetter, read);
    }

    /** `ImgCache.isBackgroundCached`. */
    method IsBackgroundCached(e: Element) returns (reply: Reply<(Option<string>, bool)>)
      ensures reply == CS.IsBackgroundCached(cfg, State(), e.View())
    {
      match GetBackgroundImageURL(e.View())
      case NoMatch => reply := Throws;
      case NoProperty => reply := IsCached(None);
      case Url(u) => reply := IsCached(Some(u));
    }
  }
}
