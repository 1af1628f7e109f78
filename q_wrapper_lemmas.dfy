/**
 * What `QImgCache` promises: `ImgCache.init` runs at most once however calls
 * overlap, its outcome is final, and a URL cached through the wrapper is then
 * found through it.
 */
module QWrapperLemmas {
  import opened Wrappers
  import opened CacheKeys
  import opened Callbacks
  import CS = CacheStore
  import CSL = CacheStoreLemmas
  import opened QWrapper

  /** The count of `ImgCache.init` calls matches `initPromise`: none before it
      exists, exactly one after. Every event keeps this. */
  predicate CallsMatch(g: QGate) {
    g.initCalls == if g.initPromise == Unset then 0 else 1
  }

  lemma {:induction false} CallsMatchKept(g: QGate, es: seq<QEvent>)
    requires CallsMatch(g)
    ensures CallsMatch(QGateRun(g, es))
    decreases |es|
  {
    if |es| > 0 {
      var next := QGateStep(g, es[0]);
      assert CallsMatch(next);
      CallsMatchKept(next, es[1..]);
    }
  }

  /** However calls and init callbacks interleave, `ImgCache.init` is called at
      most once. */
  lemma AtMostOneInit(es: seq<QEvent>)
    ensures QGateRun(QGate(Unset, 0), es).initCalls <= 1
  {
    CallsMatchKept(QGate(Unset, 0), es);
  }

  /** Once `initPromise` is fulfilled or rejected it stays so: a failure is
      never retried. */
  lemma {:induction false} InitOutcomeIsFinal(g: QGate, es: seq<QEvent>)
    requires g.initPromise == Fulfilled || g.initPromise == Failed
    ensures QGateRun(g, es).initPromise == g.initPromise
    ensures QGateRun(g, es).initCalls == g.initCalls
    decreases |es|
  {
    if |es| > 0 {
      InitOutcomeIsFinal(QGateStep(g, es[0]), es[1..]);
    }
  }

  /** The state after calls made one after the other, each with the outcome
      `ImgCache.init` would have, and how many of them called it. */
  datatype Attempts = Attempts(q: QState, inits: nat)

  function Inits(cfg: CS.Config, q: QState, os: seq<CS.InitOutcome>): Attempts
    decreases |os|
  {
    if |os| == 0 then Attempts(q, 0)
    else
      var rest := Inits(cfg, Init(cfg, q, os[0]), os[1..]);
      Attempts(rest.q, rest.inits + (if q.initPromise == Unset then 1 else 0))
  }

  /** Calls made one after the other call `ImgCache.init` once, with the first
      call's outcome, and keep its verdict. */
  lemma {:induction false} InitRunsOnce(cfg: CS.Config, q: QState, os: seq<CS.InitOutcome>)
    ensures Inits(cfg, q, os).inits == if q.initPromise == Unset && |os| > 0 then 1 else 0
    ensures |os| > 0 ==> Inits(cfg, q, os).q == Init(cfg, q, os[0])
    decreases |os|
  {
    if |os| > 0 {
      var q1 := Init(cfg, q, os[0]);
      InitRunsOnce(cfg, q1, os[1..]);
      if |os| > 1 {
        assert Init(cfg, q1, os[1]) == q1;
      }
    }
  }

  /** A failed `init` is final: a later `getCachedFile` rejects without calling
      the cache, even when `ImgCache.init` would now succeed. */
  lemma FailureIsSticky(cfg: CS.Config, q: QState, bad: CS.InitOutcome, good: CS.InitOutcome,
                        url: string, t: CS.Transfer, progress: seq<ProgressEvent>, later: Option<string>)
    requires q.initPromise == Unset && !(bad.fsOk && bad.dirOk)
    ensures var first := CacheFile(cfg, q, bad, url, t, progress);
      first.settlement == Rejected
      && GetCachedFile(cfg, first.q, good, later) == QResult(first.q, Rejected, [])
  {
  }

  /** A URL cached through the wrapper is then found through it. */
  lemma CacheThenGetCachedFile(cfg: CS.Config, q: QState, o: CS.InitOutcome, o2: CS.InitOutcome,
                               url: string, size: nat, reported: bool, progress: seq<ProgressEvent>)
    requires Inv(q) && Init(cfg, q, o).initPromise == Fulfilled
    requires url != "" && SanitizeURI(cfg.skipURIencoding, url) != ""
    ensures var cached := CacheFile(cfg, q, o, url, CS.Downloaded(size, reported), progress);
      var name := GetCachedFileName(cfg.hash, SanitizeURI(cfg.skipURIencoding, url)).value;
      cached.settlement == Resolved(()) && cached.notified == progress
      && GetCachedFile(cfg, cached.q, o2, Some(url)) == QResult(cached.q, Resolved(name), [])
  {
    var q1 := Init(cfg, q, o);
    CSL.CacheFileThenFound(cfg, q1.cache, url, size, reported);
  }
}
