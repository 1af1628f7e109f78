/**
 * The legacy global `ImgCache` object of `js/imgcache.js`, whose fields
 * `filesystem`, `dirEntry` and `ready` its operations set in place. Each
 * method is proved to land in the state, and give the reply, of the matching
 * function of `LegacyCache`.
 */
module LegacyImgCache {
  import opened Wrappers
  import opened Dom
  import opened BackgroundUrl
  import opened Callbacks
  import CS = CacheStore
  import L = LegacyCache

  class ImgCache {
    const cfg: L.Config
    var filesystem: bool
    var dirEntry: bool
    var ready: bool
    /** The names of the files in the cache folder. */
    var files: set<string>

    function State(): L.Store
      reads this
    {
      L.Store(filesystem, dirEntry, ready, files)
    }

    /** The object as the script defines it: nothing opened yet. */
    constructor (cfg: L.Config, files: set<string>)
      ensures State() == L.Store(false, false, false, files) && this.cfg == cfg
    {
      this.cfg := cfg;
      filesystem := false;
      dirEntry := false;
      ready := false;
      this.files := files;
    }

    /** `_createCacheDir`, with the outcome of opening the folder given. */
    method CreateCacheDir(dirOk: bool) returns (reply: Reply<()>)
      requires filesystem
      modifies this
      ensures State() == L.CreateCacheDir(old(State()), dirOk).store
      ensures reply == L.CreateCacheDir(old(State()), dirOk).reply
    {
      if !dirOk {
        return NoReply;
      }
      dirEntry := true;
      ready := true;
      reply := Ok(());
    }

    /** `ImgCache.init`, with the outcomes of opening the file system and the folder given. */
    method Init(fsOk: bool, dirOk: bool) returns (reply: Reply<()>)
      modifies this
      ensures State() == L.Init(old(State()), fsOk, dirOk).store
      ensures reply == L.Init(old(State()), fsOk, dirOk).reply
    {
      if !fsOk {
        return Err;
      }
      filesystem := true;
      reply := CreateCacheDir(dirOk);
    }

    /** `ImgCache.cacheFile`, with the outcome of the download given. */
    method CacheFile(src: string, t: L.Transfer) returns (reply: Reply<()>)
      modifies this
      ensures State() == L.CacheFile(cfg, old(State()), src, t).store
      ensures reply == L.CacheFile(cfg, old(State()), src, t).reply
    {
      if !filesystem || !dirEntry || src == "" {
        return NoReply;
      }
      if t.TransferFailed? {
        return Err;
      }
      files := files + {L.CachedFileName(cfg.hash, src)};
      reply := Ok(());
    }

    /** `ImgCache.isCached`. */
    method IsCached(src: string) returns (reply: Reply<(string, bool)>)
      ensures reply == L.IsCached(cfg, State(), src)
    {
      if !filesystem || !dirEntry {
        return NoReply;
      }
      var found := L.CachedFileName(cfg.hash, src) in files;
      reply := Ok((src, found));
    }

    /** `ImgCache.useOnlineFile`. */
    method UseOnlineFile(e: Element?)
      modifies e
      ensures e != null ==> e.View() == L.UseOnlineFile(Some(old(e.View()))).value
    {
      if e == null {
        return;
      }
      var v := e.View();
      if v.Truthy(OldSrcAttr) {
        e.Assign(v.Set(SrcAttr, v.attrs[OldSrcAttr]));
      }
      e.Assign(e.View().Remove(OldSrcAttr));
    }

    /** `ImgCache.useCachedFile`, with the result of reading the file as a data
        URI given. */
    method UseCachedFile(e: Element?, read: Option<string>) returns (reply: Reply<()>)
      modifies e
      ensures e == null ==> reply == L.UseCachedFile(cfg, State(), None, read).reply
      ensures (e != null ==> CS.ElementStep(Some(e.View()), reply)
                             == L.UseCachedFile(cfg, State(), Some(old(e.View())), read))
    {
      if !filesystem || !dirEntry || e == null {
        return NoReply;
      }
      var v := e.View();
      ghost var r := L.UseCachedFile(cfg, State(), Some(v), read);
      var src := v.Get(SrcAttr);
      if src.None? {
        assert r == CS.ElementStep(Some(v), Throws);
        return Throws;
      }
      var name := L.CachedFileName(cfg.hash, src.value);
      if name !in files {
        assert r == CS.ElementStep(Some(v), Err);
        return Err;
      }
      var newUrl := if cfg.useDataURI then read else Some(cfg.getUrl(name));
      if newUrl.None? || (cfg.useDataURI && newUrl.value == "") {
        assert r == CS.ElementStep(Some(v), Err);
        return Err;
      }
      assert r == CS.ElementStep(Some(L.SetNewImgPath(v, newUrl.value, src.value)), Ok(()));
      e.Assign(L.SetNewImgPath(v, newUrl.value, src.value));
      reply := Ok(());
    }

    /** `ImgCache.clearCache`, with the outcomes of the removal and of the
        recreation of the folder given. */
    method ClearCache(removeOk: bool, recreateOk: bool) returns (reply: Reply<()>)
      modifies this
      ensures State() == L.ClearCache(old(State()), removeOk, recreateOk).store
      ensures reply == L.ClearCache(old(State()), removeOk, recreateOk).reply
    {
      if !filesystem || !dirEntry {
        return NoReply;
      }
      if !removeOk {
        return Err;
      }
      files := {};
      reply := CreateCacheDir(recreateOk);
    }

    /** `ImgCache.cacheBackground`, with the outcome of the download given. */
    method CacheBackground(e: Element, t: L.Transfer) returns (reply: Reply<()>)
      modifies this
      ensures State() == L.CacheBackground(cfg, old(State()), e.backgroundImage, t).store
      ensures reply == L.CacheBackground(cfg, old(State()), e.backgroundImage, t).reply
    {
      var url := LegacyBackgroundURL(e.backgroundImage);
      if url.None? {
        return Throws;
      }
      reply := CacheFile(url.value, t);
    }

    /** `ImgCache.useCachedBackground` as written. */
    method UseCachedBackground(e: Element?, read: Option<string>) returns (reply: Reply<()>)
      modifies e
      ensures e == null ==> reply == L.UseCachedBackground(cfg, State(), None, read).reply
      ensures (e != null ==> CS.ElementStep(Some(e.View()), reply)
                             == L.UseCachedBackground(cfg, State(), Some(old(e.View())), read))
    {
      if !filesystem || !dirEntry || e == null {
        return NoReply;
      }
      var v := e.View();
      ghost var r := L.UseCachedBackground(cfg, State(), Some(v), read);
      var url := LegacyBackgroundURL(e.backgroundImage);
      if url.None? {
        assert r == CS.ElementStep(Some(v), Throws);
        return Throws;
      }
      var name := L.CachedFileName(cfg.hash, url.value);
      if name !in files {
        assert r == CS.ElementStep(Some(v), Err);
        return Err;
      }
      if cfg.useDataURI {
        if read.None? || read.value == "" {
          assert r == CS.ElementStep(Some(v), Err);
          return Err;
        }
        assert r == CS.ElementStep(Some(v), Uncaught);
        return Uncaught;
      }
      assert r == CS.ElementStep(Some(v.SetBackground("url(" + cfg.getUrl(name) + ")")), Ok(()));
      e.Assign(v.SetBackground("url(" + cfg.getUrl(name) + ")"));
      reply := Ok(());
    }
  }
}
