/**
 * `ImgCachePromise` of `lib/imgcache-promise.js`: every operation of the cache
 * behind a promise, with `init` called for the caller. The wrapper keeps one
 * flag, `initPerformed`; each exported call first runs `initCheck`, which calls
 * `ImgCache.init` unless the flag is set, and calls the cache only once that
 * has resolved. The promises are modelled by their settlement once every
 * callback that will run has run.
 */
module PromiseWrapper {
  import opened Wrappers
  import opened CacheKeys
  import opened Dom
  import opened BackgroundUrl
  import opened Callbacks
  import CS = CacheStore

  /** The cache and the wrapper's `initPerformed` flag. */
  datatype Wrapper = Wrapper(cache: CS.Store, initPerformed: bool)

  /** The flag is only ever set by a successful `init`, and nothing unloads the
      cache afterwards. */
  predicate Inv(w: Wrapper) {
    w.initPerformed ==> CS.Loaded(w.cache)
  }

  /** The state after a wrapped call and the settlement of the promise it returned. */
  datatype Gated<T> = Gated(w: Wrapper, settlement: Settlement<T>)

  /** The same for a call on an element, with the element as the call left it. */
  datatype GatedElement = GatedElement(w: Wrapper, element: Option<ElementView>, settlement: Settlement<()>)

  /** `init` (and `initCheck`, which only calls it): resolved at once when the
      flag is set; otherwise a promise on `ImgCache.init` whose success callback
      sets the flag. A failure leaves the flag clear, so the next call tries
      again. */
  function InitCheck(cfg: CS.Config, w: Wrapper, o: CS.InitOutcome): (r: Gated<()>)
    ensures w.initPerformed ==> r == Gated(w, Resolved(()))
    ensures !w.initPerformed ==> (r.settlement.Resolved? <==> o.fsOk && o.dirOk)
    ensures r.settlement.Resolved? || r.settlement.Rejected?
    ensures r.w.initPerformed <==> r.settlement.Resolved?
    ensures Inv(w) ==> Inv(r.w)
  {
    if w.initPerformed then Gated(w, Resolved(()))
    else
      var s := CS.Init(cfg, w.cache, o.fsOk, o.dirOk, o.removeOk, o.recreateOk);
      Gated(Wrapper(s.store, s.reply.Ok?), Promised(s.reply))
  }

  /** `ImgCachePromise.cacheFile`: resolves with the URL of the downloaded file;
      rejects when `init` or the download fails; stays pending for an empty URL,
      which `cacheFile` ignores without calling back. */
  function CacheFile(cfg: CS.Config, w: Wrapper, o: CS.InitOutcome, url: string, t: CS.Transfer): (r: Gated<string>)
    ensures InitCheck(cfg, w, o).settlement.Rejected? ==> r == Gated(InitCheck(cfg, w, o).w, Rejected)
    ensures Inv(w) ==> Inv(r.w)
    ensures r.w.initPerformed == InitCheck(cfg, w, o).w.initPerformed
    ensures (Inv(w) && InitCheck(cfg, w, o).settlement.Resolved? ==>
               (url == "" ==> r.settlement.Pending?)
               && (r.settlement.Resolved? <==> url != "" && t.Downloaded? && SanitizeURI(cfg.skipURIencoding, url) != "")
               && (r.settlement.Resolved? ==>
                     r.settlement.value == cfg.toUrl(GetCachedFileName(cfg.hash, SanitizeURI(cfg.skipURIencoding, url)).value)))
  {
    var g := InitCheck(cfg, w, o);
    if !g.settlement.Resolved? then Gated(g.w, Rejected)
    else
      var s := CS.CacheFile(cfg, g.w.cache, url, t);
      Gated(g.w.(cache := s.store), Promised(s.reply))
  }

  /** The settlement of the promise `getCachedFile` returns, from the reply of
      `ImgCache.getCachedFile`: the file on a hit, a rejection on a miss. */
  function EntrySettlement(reply: Reply<CS.Lookup>): (s: Settlement<string>)
    ensures s.Resolved? <==> reply.Ok? && reply.value.entry.Some?
    ensures s.Resolved? ==> s.value == reply.value.entry.value
    ensures s.Pending? <==> reply.NoReply? || reply.Uncaught?
  {
    match reply
    case Ok(l) => if l.entry.Some? then Resolved(l.entry.value) else Rejected
    case Err => Rejected
    case Throws => Rejected
    case NoReply => Pending
    case Uncaught => Pending
  }

  /** `ImgCachePromise.getCachedFile`: after `init`, resolves with the cached
      file of the URL and rejects when there is none. */
  function GetCachedFile(cfg: CS.Config, w: Wrapper, o: CS.InitOutcome, url: Option<string>): (r: Gated<string>)
    ensures InitCheck(cfg, w, o).settlement.Rejected? ==> r == Gated(InitCheck(cfg, w, o).w, Rejected)
    ensures r.w == InitCheck(cfg, w, o).w
    ensures (r.settlement.Resolved? ==>
               url.Some?
               && Some(r.settlement.value) == GetCachedFileName(cfg.hash, SanitizeURI(cfg.skipURIencoding, url.value))
               && r.settlement.value in r.w.cache.dir)
    ensures (Inv(w) && InitCheck(cfg, w, o).settlement.Resolved? ==>
               !r.settlement.Pending?
               && (url.Some? ==> (r.settlement.Resolved?
                                  <==> CS.Find(cfg, r.w.cache, Some(SanitizeURI(cfg.skipURIencoding, url.value))).Some?)))
  {
    var g := InitCheck(cfg, w, o);
    if !g.settlement.Resolved? then Gated(g.w, Rejected)
    else Gated(g.w, EntrySettlement(CS.GetCachedFile(cfg, g.w.cache, url)))
  }

  /** `ImgCachePromise.isCached`, which is `getCachedFile`: it rejects on a miss
      rather than resolving with false. */
  function IsCached(cfg: CS.Config, w: Wrapper, o: CS.InitOutcome, url: Option<string>): (r: Gated<string>)
    ensures r == GetCachedFile(cfg, w, o, url)
  {
    GetCachedFile(cfg, w, o, url)
  }

  /** `ImgCachePromise.getCachedFileURL` as written: the wrapper passes no error
      callback and waits for a null URL in the success callback instead, which
      `getCachedFileURL` never passes; on a miss the promise never settles. */
  function GetCachedFileURL(cfg: CS.Config, w: Wrapper, o: CS.InitOutcome, url: Option<string>): (r: Gated<string>)
    ensures InitCheck(cfg, w, o).settlement.Rejected? ==> r == Gated(InitCheck(cfg, w, o).w, Rejected)
    ensures r.w == InitCheck(cfg, w, o).w
    ensures (r.settlement.Resolved? ==>
               CS.GetCachedFileURL(cfg, r.w.cache, url).Ok?
               && r.settlement.value == CS.GetCachedFileURL(cfg, r.w.cache, url).value.1)
    ensures (r.settlement.Rejected? <==>
               InitCheck(cfg, w, o).settlement.Rejected? || CS.GetCachedFileURL(cfg, r.w.cache, url).Throws?)
  {
    var g := InitCheck(cfg, w, o);
    if !g.settlement.Resolved? then Gated(g.w, Rejected)
    else
      var reply := CS.GetCachedFileURL(cfg, g.w.cache, url);
      Gated(g.w, if reply.Err? then Pending else URLSettlement(reply))
  }

  /** The settlement of a promise whose executor passes both `resolve` and
      `reject` to `getCachedFileURL`: the URL on a hit, a rejection on a miss. */
  function URLSettlement(reply: Reply<(Option<string>, string)>): (s: Settlement<string>)
    ensures s.Resolved? <==> reply.Ok?
    ensures s.Resolved? ==> s.value == reply.value.1
    ensures s.Rejected? <==> reply.Err? || reply.Throws?
  {
    match reply
    case Ok((_, u)) => Resolved(u)
    case Err => Rejected
    case Throws => Rejected
    case NoReply => Pending
    case Uncaught => Pending
  }

  /** `getCachedFileURL` as evidently intended: a miss rejects the promise, so
      after `init` it always settles. */
  function GetCachedFileURLCorrected(cfg: CS.Config, w: Wrapper, o: CS.InitOutcome, url: Option<string>)
    : (r: Gated<string>)
    ensures InitCheck(cfg, w, o).settlement.Rejected? ==> r == Gated(InitCheck(cfg, w, o).w, Rejected)
    ensures r.w == InitCheck(cfg, w, o).w
    ensures (r.settlement.Resolved? ==>
               url.Some? && CS.Find(cfg, r.w.cache, Some(SanitizeURI(cfg.skipURIencoding, url.value))).Some?
               && r.settlement.value == cfg.getUrl(CS.Find(cfg, r.w.cache, Some(SanitizeURI(cfg.skipURIencoding, url.value))).value))
  {
    var g := InitCheck(cfg, w, o);
    if !g.settlement.Resolved? then Gated(g.w, Rejected)
    else Gated(g.w, URLSettlement(CS.GetCachedFileURL(cfg, g.w.cache, url)))
  }

  /** `ImgCachePromise.useCachedFile`: after `init`, resolves once the element
      points at its cached file, and rejects on a miss or a throw, leaving the
      element as it was. */
  function UseCachedFile(cfg: CS.Config, w: Wrapper, o: CS.InitOutcome, v: Option<ElementView>, read: Option<string>)
    : (r: GatedElement)
    ensures InitCheck(cfg, w, o).settlement.Rejected? ==> r == GatedElement(InitCheck(cfg, w, o).w, v, Rejected)
    ensures r.w == InitCheck(cfg, w, o).w
    ensures !r.settlement.Resolved? ==> r.element == v
    ensures (r.settlement.Resolved? ==>
               v.Some? && v.value.Get(SrcAttr).Some?
               && CS.Find(cfg, r.w.cache, Some(SanitizeURI(cfg.skipURIencoding, v.value.attrs[SrcAttr]))).Some?)
    ensures Inv(w) && InitCheck(cfg, w, o).settlement.Resolved? ==> !r.settlement.Pending?
  {
    var g := InitCheck(cfg, w, o);
    if !g.settlement.Resolved? then GatedElement(g.w, v, Rejected)
    else
      var s := CS.UseCachedFile(cfg, g.w.cache, v, read);
      GatedElement(g.w, s.element, Promised(s.reply))
  }

  /** `ImgCachePromise.useCachedFileWithSource`: the same with the source given. */
  function UseCachedFileWithSource(cfg: CS.Config, w: Wrapper, o: CS.InitOutcome, v: Option<ElementView>,
                                   url: Option<string>, read: Option<string>): (r: GatedElement)
    ensures InitCheck(cfg, w, o).settlement.Rejected? ==> r == GatedElement(InitCheck(cfg, w, o).w, v, Rejected)
    ensures r.w == InitCheck(cfg, w, o).w
    ensures !r.settlement.Resolved? ==> r.element == v
    ensures (r.settlement.Resolved? ==>
               url.Some? && CS.Find(cfg, r.w.cache, Some(SanitizeURI(cfg.skipURIencoding, url.value))).Some?)
  {
    var g := InitCheck(cfg, w, o);
    if !g.settlement.Resolved? then GatedElement(g.w, v, Rejected)
    else
      var s := CS.UseCachedFileWithSource(cfg, g.w.cache, v, url, read);
      GatedElement(g.w, s.element, Promised(s.reply))
  }

  /** `ImgCachePromise.useOnlineFile`: after `init`, resolves with the element
      back on its online source. */
  function UseOnlineFile(cfg: CS.Config, w: Wrapper, o: CS.InitOutcome, v: Option<ElementView>): (r: GatedElement)
    ensures r.w == InitCheck(cfg, w, o).w
    ensures r.settlement.Resolved? <==> InitCheck(cfg, w, o).settlement.Resolved?
    ensures !r.settlement.Resolved? ==> r.settlement.Rejected? && r.element == v
    ensures (Inv(w) && r.settlement.Resolved? && v.Some? ==>
               r.element.Some? && r.element.value.Get(OldSrcAttr).None?
               && r.element.value.Get(SrcAttr)
                  == (if v.value.Truthy(OldSrcAttr) then v.value.Get(OldSrcAttr) else v.value.Get(SrcAttr)))
  {
    var g := InitCheck(cfg, w, o);
    if !g.settlement.Resolved? then GatedElement(g.w, v, Rejected)
    else GatedElement(g.w, CS.UseOnlineFile(g.w.cache, v), Resolved(()))
  }

  /** `ImgCachePromise.clearCache`: after `init`, empties the folder and resolves
      once it is recreated. */
  function ClearCache(cfg: CS.Config, w: Wrapper, o: CS.InitOutcome, removeOk: bool, recreateOk: bool): (r: Gated<()>)
    ensures InitCheck(cfg, w, o).settlement.Rejected? ==> r == Gated(InitCheck(cfg, w, o).w, Rejected)
    ensures Inv(w) ==> Inv(r.w)
    ensures r.w.initPerformed == InitCheck(cfg, w, o).w.initPerformed
    ensures (Inv(w) && InitCheck(cfg, w, o).settlement.Resolved? ==>
               (r.settlement.Resolved? <==> removeOk && recreateOk) && !r.settlement.Pending?
               && (removeOk ==> r.w.cache.dir == map[]))
  {
    var g := InitCheck(cfg, w, o);
    if !g.settlement.Resolved? then Gated(g.w, Rejected)
    else
      var s := CS.ClearCache(cfg, g.w.cache, removeOk, recreateOk);
      Gated(g.w.(cache := s.store), Promised(s.reply))
  }

  /** `ImgCachePromise.isBackgroundCached` as written: `resolve` is the response
      callback, so the promise resolves with its first argument, the source,
      and the answer is dropped. */
  function IsBackgroundCached(cfg: CS.Config, w: Wrapper, o: CS.InitOutcome, v: ElementView): (r: Gated<Option<string>>)
    ensures InitCheck(cfg, w, o).settlement.Rejected? ==> r == Gated(InitCheck(cfg, w, o).w, Rejected)
    ensures r.w == InitCheck(cfg, w, o).w
    ensures (r.settlement.Resolved? <==> InitCheck(cfg, w, o).settlement.Resolved?
                                         && CS.IsBackgroundCached(cfg, r.w.cache, v).Ok?)
    ensures r.settlement.Resolved? ==> r.settlement.value == CS.IsBackgroundCached(cfg, r.w.cache, v).value.0
  {
    var g := InitCheck(cfg, w, o);
    if !g.settlement.Resolved? then Gated(g.w, Rejected)
    else
      Gated(g.w, match CS.IsBackgroundCached(cfg, g.w.cache, v)
        case Ok((src, _)) => Resolved(src)
        case Err => Rejected
        case Throws => Rejected
        case NoReply => Pending
        case Uncaught => Pending)
  }

  /** `isBackgroundCached` as evidently intended: the promise resolves with
      whether the background is cached. */
  function IsBackgroundCachedCorrected(cfg: CS.Config, w: Wrapper, o: CS.InitOutcome, v: ElementView): (r: Gated<bool>)
    ensures InitCheck(cfg, w, o).settlement.Rejected? ==> r == Gated(InitCheck(cfg, w, o).w, Rejected)
    ensures r.w == InitCheck(cfg, w, o).w
    ensures (r.settlement.Resolved? <==> InitCheck(cfg, w, o).settlement.Resolved?
                                         && CS.IsBackgroundCached(cfg, r.w.cache, v).Ok?)
    ensures r.settlement.Resolved? ==> r.settlement.value == CS.IsBackgroundCached(cfg, r.w.cache, v).value.1
  {
    var g := InitCheck(cfg, w, o);
    if !g.settlement.Resolved? then Gated(g.w, Rejected)
    else
      Gated(g.w, match CS.IsBackgroundCached(cfg, g.w.cache, v)
        case Ok((_, found)) => Resolved(found)
        case Err => Rejected
        case Throws => Rejected
        case NoReply => Pending
        case Uncaught => Pending)
  }

  /** `ImgCachePromise.cacheBackground`: `cacheFile` of the background URL. */
  function CacheBackground(cfg: CS.Config, w: Wrapper, o: CS.InitOutcome, v: ElementView, t: CS.Transfer)
    : (r: Gated<string>)
    ensures InitCheck(cfg, w, o).settlement.Rejected? ==> r == Gated(InitCheck(cfg, w, o).w, Rejected)
    ensures Inv(w) ==> Inv(r.w)
    ensures r.w.initPerformed == InitCheck(cfg, w, o).w.initPerformed
    ensures (Inv(w) && GetBackgroundImageURL(v).Url? && GetBackgroundImageURL(v).url != ""
             ==> r == CacheFile(cfg, w, o, GetBackgroundImageURL(v).url, t))
    ensures (Inv(w) && InitCheck(cfg, w, o).settlement.Resolved? && !GetBackgroundImageURL(v).Url?
             ==> r == Gated(InitCheck(cfg, w, o).w, Rejected))
  {
    var g := InitCheck(cfg, w, o);
    if !g.settlement.Resolved? then Gated(g.w, Rejected)
    else
      var s := CS.CacheBackground(cfg, g.w.cache, v, t);
      Gated(g.w.(cache := s.store), Promised(s.reply))
  }

  /** `ImgCachePromise.useCachedBackground`: wraps `useCachedBackground` as
      written. */
  function UseCachedBackground(cfg: CS.Config, w: Wrapper, o: CS.InitOutcome, v: ElementView, read: Option<string>)
    : (r: GatedElement)
    ensures InitCheck(cfg, w, o).settlement.Rejected? ==> r == GatedElement(InitCheck(cfg, w, o).w, Some(v), Rejected)
    ensures r.w == InitCheck(cfg, w, o).w
    ensures !r.settlement.Resolved?
    ensures r.element == Some(v)
  {
    var g := InitCheck(cfg, w, o);
    if !g.settlement.Resolved? then GatedElement(g.w, Some(v), Rejected)
    else
      var s := CS.UseCachedBackground(cfg, g.w.cache, v, read);
      GatedElement(g.w, s.element, Promised(s.reply))
  }

  /** `ImgCachePromise.useBackgroundOnlineFile`: after `init`, resolves with the
      element back on its online background. */
  function UseBackgroundOnlineFile(cfg: CS.Config, w: Wrapper, o: CS.InitOutcome, v: Option<ElementView>)
    : (r: GatedElement)
    ensures r.w == InitCheck(cfg, w, o).w
    ensures r.settlement.Resolved? <==> InitCheck(cfg, w, o).settlement.Resolved?
    ensures !r.settlement.Resolved? ==> r.settlement.Rejected? && r.element == v
    ensures (r.settlement.Resolved? && v.Some? ==>
               r.element.Some? && r.element.value.Get(OldBackgroundAttr).None?
               && r.element.value.backgroundImage == (if v.value.Truthy(OldBackgroundAttr)
                                                      then "url(\"" + v.value.attrs[OldBackgroundAttr] + "\")"
                                                      else v.value.backgroundImage))
  {
    var g := InitCheck(cfg, w, o);
    if !g.settlement.Resolved? then GatedElement(g.w, v, Rejected)
    else GatedElement(g.w, CS.UseBackgroundOnlineFile(v), Resolved(()))
  }

  /** `ImgCachePromise.removeFile`: after `init`, removes the file of the URL and
      resolves, or rejects when there is none or the removal fails. */
  function RemoveFile(cfg: CS.Config, w: Wrapper, o: CS.InitOutcome, url: string, removeOk: bool): (r: Gated<()>)
    ensures InitCheck(cfg, w, o).settlement.Rejected? ==> r == Gated(InitCheck(cfg, w, o).w, Rejected)
    ensures Inv(w) ==> Inv(r.w)
    ensures r.w.initPerformed == InitCheck(cfg, w, o).w.initPerformed
    ensures (Inv(w) && InitCheck(cfg, w, o).settlement.Resolved? ==>
               !r.settlement.Pending?
               && (r.settlement.Resolved? <==>
                     removeOk && CS.Find(cfg, InitCheck(cfg, w, o).w.cache, Some(SanitizeURI(cfg.skipURIencoding, url))).Some?)
               && (r.settlement.Resolved? ==>
                     CS.Find(cfg, r.w.cache, Some(SanitizeURI(cfg.skipURIencoding, url))).None?))
  {
    var g := InitCheck(cfg, w, o);
    if !g.settlement.Resolved? then Gated(g.w, Rejected)
    else
      var s := CS.RemoveFile(cfg, g.w.cache, url, removeOk);
      Gated(g.w.(cache := s.store), Promised(s.reply))
  }

  // ---------------------------------------------------------------------------
  // Overlapping calls

  /** What the gate sees while calls overlap: a call arrives, or one of the
      `ImgCache.init` calls in flight settles. */
  datatype GateEvent = Call | InitSettles(ok: bool)

  /** The flag, how many times `ImgCache.init` has been called, and how many of
      those calls have not settled yet. */
  datatype InitGate = InitGate(initPerformed: bool, initCalls: nat, inFlight: nat)

  /** One event: a call starts its own `ImgCache.init` unless the flag is set,
      whether or not another is in flight; a settling init sets the flag when
      it succeeds. */
  function GateStep(g: InitGate, e: GateEvent): (r: InitGate)
    ensures r.initCalls == g.initCalls + (if e.Call? && !g.initPerformed then 1 else 0)
    ensures r.initPerformed <==> g.initPerformed || (e == InitSettles(true) && g.inFlight > 0)
  {
    match e
    case Call =>
      if g.initPerformed then g else g.(initCalls := g.initCalls + 1, inFlight := g.inFlight + 1)
    case InitSettles(ok) =>
      if g.inFlight == 0 then g else g.(initPerformed := g.initPerformed || ok, inFlight := g.inFlight - 1)
  }

  function GateRun(g: InitGate, es: seq<GateEvent>): InitGate
    decreases |es|
  {
    if |es| == 0 then g else GateRun(GateStep(g, es[0]), es[1..])
  }

  /** The number of calls among the events. */
  function Calls(es: seq<GateEvent>): nat
    decreases |es|
  {
    if |es| == 0 then 0 else (if es[0].Call? then 1 else 0) + Calls(es[1..])
  }
}
