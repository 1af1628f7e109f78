/**
 * `ImgCachePromise` as the script builds it: the `initPerformed` flag it flips
 * in place, around the `ImgCache` object it drives. Each method runs
 * `initCheck` and then the cache method, and is proved to land in the state,
 * and settle its promise, as the matching function of `PromiseWrapper` says.
 */
module ImgCachePromiseLib {
  import opened Wrappers
  import opened Dom
  import opened Callbacks
  import CS = CacheStore
  import PW = PromiseWrapper
  import opened ImgCacheLib

  class ImgCachePromise {
    /** The `ImgCache` object the wrapper was given. */
    const cache: ImgCache
    var initPerformed: bool

    function State(): PW.Wrapper
      reads this, cache
    {
      PW.Wrapper(cache.State(), initPerformed)
    }

    predicate Valid()
      reads this, cache
    {
      cache.Valid() && PW.Inv(State())
    }

    /** The wrapper as the script leaves it: the flag clear. */
    constructor (cache: ImgCache)
      requires cache.Valid()
      ensures Valid() && this.cache == cache && !initPerformed
    {
      this.cache := cache;
      initPerformed := false;
    }

    /** `init` / `initCheck`, with the outcomes `ImgCache.init` meets. */
    method InitCheck(o: CS.InitOutcome) returns (s: Settlement<()>)
      requires Valid()
      modifies this, cache
      ensures Valid()
      ensures State() == PW.InitCheck(cache.cfg, old(State()), o).w
      ensures s == PW.InitCheck(cache.cfg, old(State()), o).settlement
    {
      if initPerformed {
        return Resolved(());
      }
      var reply := cache.Init(o.fsOk, o.dirOk, o.removeOk, o.recreateOk);
      if reply.Ok? {
        initPerformed := true;
      }
      s := Promised(reply);
    }

    /** `ImgCachePromise.cacheFile`, with the outcome of the download given. */
    method CacheFile(url: string, o: CS.InitOutcome, t: CS.Transfer) returns (s: Settlement<string>)
      requires Valid()
      modifies this, cache
      ensures Valid()
      ensures State() == PW.CacheFile(cache.cfg, old(State()), o, url, t).w
      ensures s == PW.CacheFile(cache.cfg, old(State()), o, url, t).settlement
    {
      var gate := InitCheck(o);
      if !gate.Resolved? {
        return Rejected;
      }
      var reply := cache.CacheFile(url, t);
      s := Promised(reply);
    }

    /** `ImgCachePromise.getCachedFile`. */
    method GetCachedFile(url: Option<string>, o: CS.InitOutcome) returns (s: Settlement<string>)
      requires Valid()
      modifies this, cache
      ensures Valid()
      ensures State() == PW.GetCachedFile(cache.cfg, old(State()), o, url).w
      ensures s == PW.GetCachedFile(cache.cfg, old(State()), o, url).settlement
    {
      var gate := InitCheck(o);
      if !gate.Resolved? {
        return Rejected;
      }
      var reply := cache.GetCachedFile(url);
      s := PW.EntrySettlement(reply);
    }

    /** `ImgCachePromise.isCached`. */
    method IsCached(url: Option<string>, o: CS.InitOutcome) returns (s: Settlement<string>)
      requires Valid()
      modifies this, cache
      ensures Valid()
      ensures State() == PW.IsCached(cache.cfg, old(State()), o, url).w
      ensures s == PW.IsCached(cache.cfg, old(State()), o, url).settlement
    {
      s := GetCachedFile(url, o);
    }

    /** `ImgCachePromise.getCachedFileURL` as written. */
    method GetCachedFileURL(url: Option<string>, o: CS.InitOutcome) returns (s: Settlement<string>)
      requires Valid()
      modifies this, cache
      ensures Valid()
      ensures State() == PW.GetCachedFileURL(cache.cfg, old(State()), o, url).w
      ensures s == PW.GetCachedFileURL(cache.cfg, old(State()), o, url).settlement
    {
      var gate := InitCheck(o);
      if !gate.Resolved? {
        return Rejected;
      }
      var reply := cache.GetCachedFileURL(url);
      s := if reply.Err? then Pending else PW.URLSettlement(reply);
    }

    /** `ImgCachePromise.useCachedFile`, with the result of reading the file as
        a data URI given. */
    method UseCachedFile(e: Element?, o: CS.InitOutcome, read: Option<string>) returns (s: Settlement<()>)
      requires Valid()
      modifies this, cache, e
      ensures Valid()
      ensures (var r := PW.UseCachedFile(cache.cfg, old(State()), o, if e == null then None else Some(old(e.View())), read);
               State() == r.w && s == r.settlement && (e != null ==> r.element == Some(e.View())))
    {
      var gate := InitCheck(o);
      if !gate.Resolved? {
        return Rejected;
      }
      var reply := cache.UseCachedFile(e, read);
      s := Promised(reply);
    }

    /** `ImgCachePromise.useCachedFileWithSource`. */
    method UseCachedFileWithSource(e: Element, url: Option<string>, o: CS.InitOutcome, read: Option<string>)
      returns (s: Settlement<()>)
      requires Valid()
      modifies this, cache, e
      ensures Valid()
      ensures (var r := PW.UseCachedFileWithSource(cache.cfg, old(State()), o, Some(old(e.View())), url, read);
               State() == r.w && s == r.settlement && r.element == Some(e.View()))
    {
      var gate := InitCheck(o);
      if !gate.Resolved? {
        return Rejected;
      }
      var reply := cache.UseCachedFileWithSource(e, url, read);
      s := Promised(reply);
    }

    /** `ImgCachePromise.useOnlineFile`. */
    method UseOnlineFile(e: Element?, o: CS.InitOutcome) returns (s: Settlement<()>)
      requires Valid()
      modifies this, cache, e
      ensures Valid()
      ensures (var r := PW.UseOnlineFile(cache.cfg, old(State()), o, if e == null then None else Some(old(e.View())));
               State() == r.w && s == r.settlement && (e != null ==> r.element == Some(e.View())))
    {
      var gate := InitCheck(o);
      if !gate.Resolved? {
        return Rejected;
      }
      cache.UseOnlineFile(e);
      s := Resolved(());
    }

    /** `ImgCachePromise.clearCache`, with the outcomes of the removal and of the
        recreation of the folder given. */
    method ClearCache(o: CS.InitOutcome, removeOk: bool, recreateOk: bool) returns (s: Settlement<()>)
      requires Valid()
      modifies this, cache
      ensures Valid()
      ensures State() == PW.ClearCache(cache.cfg, old(State()), o, removeOk, recreateOk).w
      ensures s == PW.ClearCache(cache.cfg, old(State()), o, removeOk, recreateOk).settlement
    {
      var gate := InitCheck(o);
      if !gate.Resolved? {
        return Rejected;
      }
      var reply := cache.ClearCache(removeOk, recreateOk);
      s := Promised(reply);
    }

    /** `ImgCachePromise.isBackgroundCached` as written. */
    method IsBackgroundCached(e: Element, o: CS.InitOutcome) returns (s: Settlement<Option<string>>)
      requires Valid()
      modifies this, cache
      ensures Valid()
      ensures State() == PW.IsBackgroundCached(cache.cfg, old(State()), o, e.View()).w
      ensures s == PW.IsBackgroundCached(cache.cfg, old(State()), o, e.View()).settlement
    {
      var gate := InitCheck(o);
      if !gate.Resolved? {
        return Rejected;
      }
      var reply := cache.IsBackgroundCached(e);
      match reply
      case Ok((src, _)) => s := Resolved(src);
      case Err => s := Rejected;
      case Throws => s := Rejected;
      case NoReply => s := Pending;
      case Uncaught => s := Pending;
    }

    /** `ImgCachePromise.cacheBackground`, with the outcome of the download given. */
    method CacheBackground(e: Element, o: CS.InitOutcome, t: CS.Transfer) returns (s: Settlement<string>)
      requires Valid()
      modifies this, cache
      ensures Valid()
      ensures State() == PW.CacheBackground(cache.cfg, old(State()), o, e.View(), t).w
      ensures s == PW.CacheBackground(cache.cfg, old(State()), o, e.View(), t).settlement
    {
      var gate := InitCheck(o);
      if !gate.Resolved? {
        return Rejected;
      }
      var reply := cache.CacheBackground(e, t);
      s := Promised(reply);
    }

    /** `ImgCachePromise.useCachedBackground`. */
    method UseCachedBackground(e: Element, o: CS.InitOutcome, read: Option<string>) returns (s: Settlement<()>)
      requires Valid()
      modifies this, cache, e
      ensures Valid()
      ensures (var r := PW.UseCachedBackground(cache.cfg, old(State()), o, old(e.View()), read);
               State() == r.w && s == r.settlement && r.element == Some(e.View()))
    {
      var gate := InitCheck(o);
      if !gate.Resolved? {
        return Rejected;
      }
      var reply := cache.UseCachedBackground(e, read);
      s := Promised(reply);
    }

    /** `ImgCachePromise.useBackgroundOnlineFile`. */
    method UseBackgroundOnlineFile(e: Element?, o: CS.InitOutcome) returns (s: Settlement<()>)
      requires Valid()
      modifies this, cache, e
      ensures Valid()
      ensures (var r := PW.UseBackgroundOnlineFile(cache.cfg, old(State()), o, if e == null then None else Some(old(e.View())));
               State() == r.w && s == r.settlement && (e != null ==> r.element == Some(e.View())))
    {
      var gate := InitCheck(o);
      if !gate.Resolved? {
        return Rejected;
      }
      cache.UseBackgroundOnlineFile(e);
      s := Resolved(());
    }

    /** `ImgCachePromise.removeFile`, with the outcome of the removal given. */
    method RemoveFile(url: string, o: CS.InitOutcome, removeOk: bool) returns (s: Settlement<()>)
      requires Valid()
      modifies this, cache
      ensures Valid()
      ensures State() == PW.RemoveFile(cache.cfg, old(State()), o, url, removeOk).w
      ensures s == PW.RemoveFile(cache.cfg, old(State()), o, url, removeOk).settlement
    {
      var gate := InitCheck(o);
      if !gate.Resolved? {
        return Rejected;
      }
      var reply := cache.RemoveFile(url, removeOk);
      s := Promised(reply);
    }
  }
}
