/**
 * `QImgCache` of `js/qimgcache.js`: `cacheFile` and `getCachedFile` behind Q
 * promises, with `init` called for the caller. The wrapper keeps one shared
 * deferred, `initPromise`, created by the first call and reused by every later
 * one: `ImgCache.init` runs at most once, and its failure is final. Each
 * exported call returns its own deferred, settled (or notified) from the
 * cache's callbacks once `initPromise` is fulfilled.
 *
 * The wrapper calls `getCachedFile` and passes a progress callback to
 * `cacheFile`, which only the `ImgCache` of `lib/imgcache.js` provides, so it
 * is modelled over that cache.
 */
module QWrapper {
  import opened Wrappers
  import opened CacheKeys
  import opened Callbacks
  import CS = CacheStore

  /** The shared `initPromise`: not created yet (null), created and waiting for
      `ImgCache.init`, fulfilled, or rejected. */
  datatype InitPromise = Unset | InFlight | Fulfilled | Failed

  /** The cache and the wrapper's `initPromise`. */
  datatype QState = QState(cache: CS.Store, initPromise: InitPromise)

  /** A fulfilled `initPromise` means `ImgCache.init` succeeded, and nothing
      unloads the cache afterwards. */
  predicate Inv(q: QState) {
    q.initPromise == Fulfilled ==> CS.Loaded(q.cache)
  }

  /** A progress event of a download, as `FileTransfer` reports it. */
  datatype ProgressEvent = ProgressEvent(loaded: nat, total: nat)

  /** The state after a wrapped call, the settlement of the deferred it
      returned, and the progress events that deferred was notified of, in
      order. */
  datatype QResult<T> = QResult(q: QState, settlement: Settlement<T>, notified: seq<ProgressEvent>)

  /** `init`: the first call creates `initPromise` and calls `ImgCache.init`,
      whose callbacks settle it; every later call returns the same promise and
      calls nothing. */
  function Init(cfg: CS.Config, q: QState, o: CS.InitOutcome): (r: QState)
    ensures q.initPromise != Unset ==> r == q
    ensures q.initPromise == Unset ==> (r.initPromise == Fulfilled <==> o.fsOk && o.dirOk)
    ensures (r.initPromise != Unset && r.initPromise != InFlight) || r == q
    ensures Inv(q) ==> Inv(r)
  {
    if q.initPromise != Unset then q
    else
      var s := CS.Init(cfg, q.cache, o.fsOk, o.dirOk, o.removeOk, o.recreateOk);
      QState(s.store, if s.reply.Ok? then Fulfilled else Failed)
  }

  /** How a deferred settled from inside the fulfilment handler ends up: a
      success or error callback settles it; a throw inside the handler only
      rejects the promise `then` returns, which nobody holds, so the deferred
      stays pending, as it does when no callback runs. The deferred is settled
      with `value`, whatever the callback received. */
  function Settled<U, T>(reply: Reply<U>, value: T): (s: Settlement<T>)
    ensures s.Resolved? <==> reply.Ok?
    ensures s.Resolved? ==> s.value == value
    ensures s.Rejected? <==> reply.Err?
  {
    match reply
    case Ok(_) => Resolved(value)
    case Err => Rejected
    case Throws => Pending
    case NoReply => Pending
    case Uncaught => Pending
  }

  /** `QImgCache.cacheFile`: once `initPromise` is fulfilled, downloads the URL,
      notifies the deferred of each progress event of the download, and then
      resolves it on success or rejects it on failure. A rejected `initPromise`
      rejects the deferred without calling the cache. */
  function CacheFile(cfg: CS.Config, q: QState, o: CS.InitOutcome, url: string, t: CS.Transfer,
                     progress: seq<ProgressEvent>): (r: QResult<()>)
    ensures Init(cfg, q, o).initPromise == Failed ==> r == QResult(Init(cfg, q, o), Rejected, [])
    ensures Inv(q) ==> Inv(r.q)
    ensures r.q.initPromise == Init(cfg, q, o).initPromise
    ensures r.notified == [] || r.notified == progress
    ensures (Inv(q) && Init(cfg, q, o).initPromise == Fulfilled ==>
               (r.notified == progress <==> url != "" || progress == [])
               && (r.settlement.Resolved? <==> url != "" && t.Downloaded? && SanitizeURI(cfg.skipURIencoding, url) != "")
               && (url == "" ==> r.settlement.Pending?))
  {
    var q1 := Init(cfg, q, o);
    match q1.initPromise
    case Fulfilled =>
      var s := CS.CacheFile(cfg, q1.cache, url, t);
      QResult(q1.(cache := s.store), Settled(s.reply, ()), if CS.Loaded(q1.cache) && url != "" then progress else [])
    case Failed => QResult(q1, Rejected, [])
    case InFlight => QResult(q1, Pending, [])
    case Unset => QResult(q1, Pending, [])
  }

  /** How the deferred of `getCachedFile` ends up: resolved with the file on a
      hit, rejected on a miss, pending when the handler throws. */
  function EntrySettled(reply: Reply<CS.Lookup>): (s: Settlement<string>)
    ensures s.Resolved? <==> reply.Ok? && reply.value.entry.Some?
    ensures s.Resolved? ==> s.value == reply.value.entry.value
    ensures s.Rejected? <==> reply.Err? || (reply.Ok? && reply.value.entry.None?)
  {
    match reply
    case Ok(l) => if l.entry.Some? then Resolved(l.entry.value) else Rejected
    case Err => Rejected
    case Throws => Pending
    case NoReply => Pending
    case Uncaught => Pending
  }

  /** `QImgCache.getCachedFile`: once `initPromise` is fulfilled, resolves the
      deferred with the cached file of the URL and rejects it on a miss. A
      rejected `initPromise` rejects it. */
  function GetCachedFile(cfg: CS.Config, q: QState, o: CS.InitOutcome, url: Option<string>): (r: QResult<string>)
    ensures Init(cfg, q, o).initPromise == Failed ==> r == QResult(Init(cfg, q, o), Rejected, [])
    ensures r.q == Init(cfg, q, o) && r.notified == []
    ensures (r.settlement.Resolved? ==>
               url.Some?
               && Some(r.settlement.value) == GetCachedFileName(cfg.hash, SanitizeURI(cfg.skipURIencoding, url.value))
               && r.settlement.value in r.q.cache.dir)
    ensures (Inv(q) && Init(cfg, q, o).initPromise == Fulfilled && url.Some? ==>
               (r.settlement.Resolved?
                <==> CS.Find(cfg, r.q.cache, Some(SanitizeURI(cfg.skipURIencoding, url.value))).Some?)
               && !r.settlement.Pending?)
  {
    var q1 := Init(cfg, q, o);
    match q1.initPromise
    case Fulfilled =>
      QResult(q1, EntrySettled(CS.GetCachedFile(cfg, q1.cache, url)), [])
    case Failed => QResult(q1, Rejected, [])
    case InFlight => QResult(q1, Pending, [])
    case Unset => QResult(q1, Pending, [])
  }

  // ---------------------------------------------------------------------------
  // Overlapping calls

  /** What the wrapper sees while calls overlap: a call arrives, or
      `ImgCache.init` calls back. */
  datatype QEvent = Call | InitSettles(ok: bool)

  /** `initPromise` and how many times `ImgCache.init` has been called. */
  datatype QGate = QGate(initPromise: InitPromise, initCalls: nat)

  /** One event: the first call creates `initPromise` and calls `ImgCache.init`;
      a settling init fulfils or rejects it; a deferred that is no longer
      waiting ignores any later settling. */
  function QGateStep(g: QGate, e: QEvent): (r: QGate)
    ensures r.initCalls == g.initCalls + (if e.Call? && g.initPromise == Unset then 1 else 0)
    ensures g.initPromise == Fulfilled || g.initPromise == Failed ==> r.initPromise == g.initPromise
  {
    match e
    case Call => if g.initPromise == Unset then QGate(InFlight, g.initCalls + 1) else g
    case InitSettles(ok) =>
      if g.initPromise == InFlight then g.(initPromise := if ok then Fulfilled else Failed) else g
  }

  function QGateRun(g: QGate, es: seq<QEvent>): QGate
    decreases |es|
  {
    if |es| == 0 then g else QGateRun(QGateStep(g, es[0]), es[1..])
  }
}
