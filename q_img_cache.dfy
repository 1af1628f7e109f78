/**
 * `QImgCache` as the script builds it: the shared `initPromise` it assigns
 * once, the `ImgCache` object it drives, and the Q deferreds it settles and
 * notifies from the cache's callbacks. Each method is proved to land in the
 * state, and leave its deferred, as the matching function of `QWrapper` says.
 */
module QImgCacheLib {
  import opened Wrappers
  import opened Callbacks
  import CS = CacheStore
  import QW = QWrapper
  import opened ImgCacheLib

  /** A Q deferred: waits until it is resolved or rejected, and records the
      progress it is notified of until then. Once settled it ignores any later
      settling or notification. */
  class Deferred<T> {
    var state: Settlement<T>
    var notified: seq<QW.ProgressEvent>

    constructor ()
      ensures state == Pending && notified == []
    {
      state := Pending;
      notified := [];
    }

    method Resolve(value: T)
      modifies this
      ensures state == if old(state).Pending? then Resolved(value) else old(state)
      ensures notified == old(notified)
    {
      if state.Pending? {
        state := Resolved(value);
      }
    }

    method Reject()
      modifies this
      ensures state == if old(state).Pending? then Rejected else old(state)
      ensures notified == old(notified)
    {
      if state.Pending? {
        state := Rejected;
      }
    }

    method Notify(p: QW.ProgressEvent)
      modifies this
      ensures state == old(state)
      ensures notified == if old(state).Pending? then old(notified) + [p] else old(notified)
    {
      if state.Pending? {
        notified := notified + [p];
      }
    }
  }

  /** The progress callback called once per event of a download, in order. */
  method NotifyAll(d: Deferred<()>, progress: seq<QW.ProgressEvent>)
    requires d.state == Pending
    modifies d
    ensures d.state == Pending && d.notified == old(d.notified) + progress
  {
    var i := 0;
    while i < |progress|
      invariant 0 <= i <= |progress|
      invariant d.state == Pending && d.notified == old(d.notified) + progress[..i]
    {
      d.Notify(progress[i]);
      i := i + 1;
    }
  }

  /** The callbacks `cacheFile` is given: success resolves the deferred and
      error rejects it. */
  method SettleDownload(d: Deferred<()>, reply: Reply<string>)
    modifies d
    ensures d.state == (if old(d.state).Pending? then QW.Settled(reply, ()) else old(d.state))
    ensures d.notified == old(d.notified)
  {
    match reply
    case Ok(_) => d.Resolve(());
    case Err => d.Reject();
    case Throws =>
    case NoReply =>
    case Uncaught =>
  }

  /** The response callback `getCachedFile` is given: a file resolves the
      deferred with it and null rejects it. */
  method SettleLookup(d: Deferred<string>, reply: Reply<CS.Lookup>)
    modifies d
    ensures d.state == (if old(d.state).Pending? then QW.EntrySettled(reply) else old(d.state))
    ensures d.notified == old(d.notified)
  {
    match reply
    case Ok(l) =>
      if l.entry.Some? {
        d.Resolve(l.entry.value);
      } else {
        d.Reject();
      }
    case Err => d.Reject();
    case Throws =>
    case NoReply =>
    case Uncaught =>
  }

  class QImgCache {
    /** The `ImgCache` object the wrapper was given. */
    const cache: ImgCache
    var initPromise: QW.InitPromise
    /** How many times the wrapper has called `ImgCache.init`. */
    ghost var initCalls: nat

    function State(): QW.QState
      reads this, cache
    {
      QW.QState(cache.State(), initPromise)
    }

    /** `ImgCache.init` has been called once exactly when `initPromise`
        exists. */
    ghost predicate Valid()
      reads this, cache
    {
      cache.Valid() && QW.Inv(State()) && initCalls == (if initPromise == QW.Unset then 0 else 1)
    }

    /** The wrapper as the script leaves it: `initPromise` is null. */
    constructor (cache: ImgCache)
      requires cache.Valid()
      ensures Valid() && this.cache == cache && initPromise == QW.Unset
    {
      this.cache := cache;
      initPromise := QW.Unset;
      initCalls := 0;
    }

    /** `init`, with the outcomes `ImgCache.init` meets. */
    method Init(o: CS.InitOutcome)
      requires Valid()
      modifies this, cache
      ensures Valid() && initCalls <= 1
      ensures State() == QW.Init(cache.cfg, old(State()), o)
    {
      if initPromise != QW.Unset {
        return;
      }
      initPromise := QW.InFlight;
      initCalls := initCalls + 1;
      var reply := cache.Init(o.fsOk, o.dirOk, o.removeOk, o.recreateOk);
      initPromise := if reply.Ok? then QW.Fulfilled else QW.Failed;
    }

    /** `QImgCache.cacheFile`, with the outcome of the download and the progress
        events it reports given. */
    method CacheFile(url: string, o: CS.InitOutcome, t: CS.Transfer, progress: seq<QW.ProgressEvent>)
      returns (d: Deferred<()>)
      requires Valid()
      modifies this, cache
      ensures Valid() && fresh(d)
      ensures (var r := QW.CacheFile(cache.cfg, old(State()), o, url, t, progress);
               State() == r.q && d.state == r.settlement && d.notified == r.notified)
    {
      d := new Deferred();
      Init(o);
      if initPromise == QW.Failed {
        d.Reject();
        return;
      }
      if initPromise != QW.Fulfilled {
        return;
      }
      if cache.IsImgCacheLoaded() && url != "" {
        NotifyAll(d, progress);
      }
      var reply := cache.CacheFile(url, t);
      SettleDownload(d, reply);
    }

    /** `QImgCache.getCachedFile`. */
    method GetCachedFile(url: Option<string>, o: CS.InitOutcome) returns (d: Deferred<string>)
      requires Valid()
      modifies this, cache
      ensures Valid() && fresh(d)
      ensures (var r := QW.GetCachedFile(cache.cfg, old(State()), o, url);
               State() == r.q && d.state == r.settlement && d.notified == r.notified)
    {
      d := new Deferred();
      Init(o);
      if initPromise == QW.Failed {
        d.Reject();
        return;
      }
      if initPromise != QW.Fulfilled {
        return;
      }
      var reply := cache.GetCachedFile(url);
      SettleLookup(d, reply);
    }
  }
}
