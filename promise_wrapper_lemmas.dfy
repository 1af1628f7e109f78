/**
 * What `ImgCachePromise` promises: `ImgCache.init` is called until it succeeds
 * and never after, overlapping calls each start their own, and the promises
 * settle as the cache answers. Also the two places where they do not: a miss in
 * `getCachedFileURL` and the answer of `isBackgroundCached`.
 */
module PromiseWrapperLemmas {
  import opened Wrappers
  import opened CacheKeys
  import opened Dom
  import opened BackgroundUrl
  import opened Callbacks
  import CS = CacheStore
  import CSL = CacheStoreLemmas
  import opened PromiseWrapper

  // ---------------------------------------------------------------------------
  // The init gate

  /** Whether `ImgCache.init` succeeds with these outcomes. */
  predicate Succeeds(o: CS.InitOutcome) {
    o.fsOk && o.dirOk
  }

  /** The state after calls made one after the other, each with the outcome its
      `ImgCache.init` would have, and how many of them called `ImgCache.init`. */
  datatype Attempts = Attempts(w: Wrapper, inits: nat)

  function InitChecks(cfg: CS.Config, w: Wrapper, os: seq<CS.InitOutcome>): Attempts
    decreases |os|
  {
    if |os| == 0 then Attempts(w, 0)
    else
      var rest := InitChecks(cfg, InitCheck(cfg, w, os[0]).w, os[1..]);
      Attempts(rest.w, rest.inits + (if w.initPerformed then 0 else 1))
  }

  /** How many outcomes up to and including the first success (all of them when
      none succeeds). */
  function FirstSuccess(os: seq<CS.InitOutcome>): nat
    decreases |os|
  {
    if |os| == 0 then 0 else if Succeeds(os[0]) then 1 else 1 + FirstSuccess(os[1..])
  }

  /** Calls made one after the other call `ImgCache.init` until one of those
      inits succeeds, and never again: a failure is retried, a success is
      remembered. */
  lemma {:induction false} InitRetriesUntilSuccess(cfg: CS.Config, w: Wrapper, os: seq<CS.InitOutcome>)
    ensures InitChecks(cfg, w, os).inits == (if w.initPerformed then 0 else FirstSuccess(os))
    ensures (InitChecks(cfg, w, os).w.initPerformed
             <==> w.initPerformed || exists i :: 0 <= i < |os| && Succeeds(os[i]))
    decreases |os|
  {
    if |os| > 0 {
      var g := InitCheck(cfg, w, os[0]);
      InitRetriesUntilSuccess(cfg, g.w, os[1..]);
      if exists i :: 0 <= i < |os[1..]| && Succeeds(os[1..][i]) {
        var i :| 0 <= i < |os[1..]| && Succeeds(os[1..][i]);
        assert Succeeds(os[i + 1]);
      }
      if exists i :: 0 <= i < |os| && Succeeds(os[i]) {
        var i :| 0 <= i < |os| && Succeeds(os[i]);
        if i > 0 {
          assert Succeeds(os[1..][i - 1]);
        }
      }
    }
  }

  /** While `ImgCache.init` has not succeeded, every call starts one more init,
      even with others still in flight. */
  lemma {:induction false} EveryCallStartsInitUntilSuccess(g: InitGate, es: seq<GateEvent>)
    requires !g.initPerformed
    ensures (!GateRun(g, es).initPerformed ==>
               GateRun(g, es).initCalls == g.initCalls + Calls(es))
    decreases |es|
  {
    if |es| > 0 {
      var next := GateStep(g, es[0]);
      if !next.initPerformed {
        EveryCallStartsInitUntilSuccess(next, es[1..]);
      } else {
        OncePerformedStaysPerformed(next, es[1..]);
      }
    }
  }

  /** Once the flag is set it stays set, and no call starts an init. */
  lemma {:induction false} OncePerformedStaysPerformed(g: InitGate, es: seq<GateEvent>)
    requires g.initPerformed
    ensures GateRun(g, es).initPerformed && GateRun(g, es).initCalls == g.initCalls
    decreases |es|
  {
    if |es| > 0 {
      OncePerformedStaysPerformed(GateStep(g, es[0]), es[1..]);
    }
  }

  /** Two calls that arrive before the first init settles start two inits. */
  lemma OverlappingCallsStartTwoInits(g: InitGate, ok: bool)
    requires !g.initPerformed
    ensures GateRun(g, [Call, Call, InitSettles(ok)]).initCalls == g.initCalls + 2
  {
    var g1 := GateStep(g, Call);
    var g2 := GateStep(g1, Call);
    assert GateRun(g, [Call, Call, InitSettles(ok)]) == GateRun(g1, [Call, InitSettles(ok)]);
    assert GateRun(g1, [Call, InitSettles(ok)]) == GateRun(g2, [InitSettles(ok)]);
  }

  // ---------------------------------------------------------------------------
  // Settlements

  /** A URL cached through the wrapper is then found through it: `getCachedFile`
      (and so `isCached`) resolves with its file, whatever a new `init` would
      do, since none runs. */
  lemma CacheThenGetCachedFile(cfg: CS.Config, w: Wrapper, o: CS.InitOutcome, o2: CS.InitOutcome,
                               url: string, size: nat, reported: bool)
    requires Inv(w) && InitCheck(cfg, w, o).settlement.Resolved?
    requires url != "" && SanitizeURI(cfg.skipURIencoding, url) != ""
    ensures var cached := CacheFile(cfg, w, o, url, CS.Downloaded(size, reported));
      var name := GetCachedFileName(cfg.hash, SanitizeURI(cfg.skipURIencoding, url)).value;
      cached.settlement == Resolved(cfg.toUrl(name))
      && cached.w.initPerformed
      && GetCachedFile(cfg, cached.w, o2, Some(url)) == Gated(cached.w, Resolved(name))
      && IsCached(cfg, cached.w, o2, Some(url)) == Gated(cached.w, Resolved(name))
  {
    var g := InitCheck(cfg, w, o);
    CSL.CacheFileThenFound(cfg, g.w.cache, url, size, reported);
  }

  /** `isCached` on a URL with no file rejects instead of resolving with false. */
  lemma IsCachedRejectsOnMiss(cfg: CS.Config, w: Wrapper, o: CS.InitOutcome, url: string)
    requires Inv(w) && InitCheck(cfg, w, o).settlement.Resolved?
    requires CS.Find(cfg, InitCheck(cfg, w, o).w.cache, Some(SanitizeURI(cfg.skipURIencoding, url))).None?
    ensures IsCached(cfg, w, o, Some(url)).settlement == Rejected
  {
  }

  /** After a clearing that removed the folder, every URL is missing. */
  lemma ClearThenGetCachedFileRejects(cfg: CS.Config, w: Wrapper, o: CS.InitOutcome, o2: CS.InitOutcome,
                                      recreateOk: bool, url: string)
    requires Inv(w) && InitCheck(cfg, w, o).settlement.Resolved?
    ensures var cleared := ClearCache(cfg, w, o, true, recreateOk);
      cleared.w.initPerformed && GetCachedFile(cfg, cleared.w, o2, Some(url)).settlement == Rejected
  {
    var g := InitCheck(cfg, w, o);
    CSL.ClearThenMissing(cfg, g.w.cache, recreateOk, url);
  }

  /** After `removeFile` resolves, `getCachedFile` of the same URL rejects. */
  lemma RemoveThenGetCachedFileRejects(cfg: CS.Config, w: Wrapper, o: CS.InitOutcome, o2: CS.InitOutcome,
                                       url: string)
    requires Inv(w) && InitCheck(cfg, w, o).settlement.Resolved?
    requires RemoveFile(cfg, w, o, url, true).settlement.Resolved?
    ensures var removed := RemoveFile(cfg, w, o, url, true);
      removed.w.initPerformed && GetCachedFile(cfg, removed.w, o2, Some(url)).settlement == Rejected
  {
  }

  /** Through the wrapper, `useCachedFile` then `useOnlineFile` puts back the
      sanitized source and both promises resolve. */
  lemma SwapAndRevert(cfg: CS.Config, w: Wrapper, o: CS.InitOutcome, o2: CS.InitOutcome, v: ElementView,
                      read: Option<string>)
    requires Inv(w) && InitCheck(cfg, w, o).settlement.Resolved?
    requires !cfg.useDataURI && SrcAttr in v.attrs
    requires (var name := GetCachedFileName(cfg.hash, SanitizeURI(cfg.skipURIencoding, v.attrs[SrcAttr]));
              name.Some? && name.value in InitCheck(cfg, w, o).w.cache.dir)
    ensures var swapped := UseCachedFile(cfg, w, o, Some(v), read);
      var back := UseOnlineFile(cfg, swapped.w, o2, swapped.element);
      swapped.settlement.Resolved? && back.settlement.Resolved?
      && back.element.value.Get(SrcAttr) == Some(SanitizeURI(cfg.skipURIencoding, v.attrs[SrcAttr]))
      && back.element.value.Get(OldSrcAttr).None?
  {
    var g := InitCheck(cfg, w, o);
    CSL.SwapAndRevert(cfg, g.w.cache, v, read);
  }

  // ---------------------------------------------------------------------------
  // getCachedFileURL

  /** As written, a miss leaves the promise of `getCachedFileURL` pending for
      ever: `getCachedFileURL` calls the error callback, which the wrapper does
      not pass. */
  lemma GetCachedFileURLMissNeverSettles(cfg: CS.Config, w: Wrapper, o: CS.InitOutcome, url: string)
    requires Inv(w) && InitCheck(cfg, w, o).settlement.Resolved?
    requires CS.Find(cfg, InitCheck(cfg, w, o).w.cache, Some(SanitizeURI(cfg.skipURIencoding, url))).None?
    ensures GetCachedFileURL(cfg, w, o, Some(url)).settlement == Pending
  {
  }

  /** Corrected, the promise always settles once `init` has run: it rejects on
      a miss, and agrees with the promise as written wherever that settles. */
  lemma GetCachedFileURLCorrectedSettles(cfg: CS.Config, w: Wrapper, o: CS.InitOutcome, url: Option<string>)
    requires Inv(w)
    ensures !GetCachedFileURLCorrected(cfg, w, o, url).settlement.Pending?
    ensures (!GetCachedFileURL(cfg, w, o, url).settlement.Pending? ==>
               GetCachedFileURLCorrected(cfg, w, o, url) == GetCachedFileURL(cfg, w, o, url))
    ensures (InitCheck(cfg, w, o).settlement.Resolved? && url.Some?
             && CS.Find(cfg, InitCheck(cfg, w, o).w.cache, Some(SanitizeURI(cfg.skipURIencoding, url.value))).None?
             ==> GetCachedFileURLCorrected(cfg, w, o, url).settlement == Rejected)
  {
    var g := InitCheck(cfg, w, o);
    if g.settlement.Resolved? {
      assert CS.Loaded(g.w.cache);
    }
  }

  // ---------------------------------------------------------------------------
  // isBackgroundCached

  /** As written, the promise of `isBackgroundCached` resolves with the source
      whether or not the background is cached: with encoding skipped it is the
      same value on a hit and on a miss. */
  lemma IsBackgroundCachedIgnoresCache(cfg: CS.Config, w: Wrapper, o: CS.InitOutcome, v: ElementView)
    requires Inv(w) && InitCheck(cfg, w, o).settlement.Resolved? && cfg.skipURIencoding
    requires GetBackgroundImageURL(v).Url?
    ensures IsBackgroundCached(cfg, w, o, v).settlement == Resolved(Some(GetBackgroundImageURL(v).url))
  {
  }

  /** Corrected, it resolves with true exactly when the file of the background
      URL is in the folder. */
  lemma IsBackgroundCachedCorrectedAnswers(cfg: CS.Config, w: Wrapper, o: CS.InitOutcome, v: ElementView)
    requires Inv(w) && InitCheck(cfg, w, o).settlement.Resolved?
    requires GetBackgroundImageURL(v).Url?
    ensures (IsBackgroundCachedCorrected(cfg, w, o, v).settlement
             == Resolved(CS.Find(cfg, InitCheck(cfg, w, o).w.cache,
                                 Some(SanitizeURI(cfg.skipURIencoding, GetBackgroundImageURL(v).url))).Some?))
  {
  }
}
