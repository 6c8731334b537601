// Properties of the link verdict of scripts/linkChecker.js, stated over the
// specification functions of module LinkChecker: the retry bound, the
// classification an unaccepted HTTP layer leaves, the browser retry bound
// and the escalation policy.

module LinkCheckerProps {
  import opened Wrappers
  import opened Text
  import opened LinkConfig
  import opened LinkChecker

  /** `max(0, x)`: the passes of a loop that counts up to a bound. */
  function Max0(x: int): nat
  {
    if x < 0 then 0 else x
  }

  /** Some attempt among `k` … `maxRetries` is accepted. */
  predicate SomeAttemptAccepted(cfg: Config, site: Option<SpecialSite>, net: Network, k: nat)
  {
    exists j: nat :: k <= j <= cfg.maxRetries && AttemptAccepted(cfg, site, net, j)
  }

  /**
   * The retry loop keeps the resource, the browser fields and every earlier
   * log line, runs at most the remaining attempts, and an accepted loop ends
   * with a valid HTTP verdict.
   */
  lemma {:induction false} HttpLayerKeeps(cfg: Config, site: Option<SpecialSite>, net: Network, r: CheckResult, k: nat)
    ensures var s := HttpLayer(cfg, site, net, r, k);
      && HttpKeeps(r, s.result)
      && s.result.attempts <= r.attempts + Max0(cfg.maxRetries + 1 - k)
      && (s.accepted ==> s.result.attempts > r.attempts && s.result.status == Valid && s.result.checkMethod == Some(Http))
    ensures k as int > cfg.maxRetries ==> HttpLayer(cfg, site, net, r, k) == Step(r, false)
    decreases cfg.maxRetries - k
  {
    if k as int <= cfg.maxRetries {
      var a := Attempt(cfg, site, net, r, k);
      if !a.accepted {
        HttpLayerKeeps(cfg, site, net, a.result, k + 1);
      }
    }
  }

  /** The retry loop from attempt `k` on is accepted exactly when some attempt within `maxRetries` is. */
  lemma {:induction false} HttpLayerAccepted(cfg: Config, site: Option<SpecialSite>, net: Network, r: CheckResult, k: nat)
    ensures HttpLayer(cfg, site, net, r, k).accepted <==> SomeAttemptAccepted(cfg, site, net, k)
    decreases cfg.maxRetries - k
  {
    if k as int <= cfg.maxRetries {
      var a := Attempt(cfg, site, net, r, k);
      if !a.accepted {
        HttpLayerAccepted(cfg, site, net, a.result, k + 1);
        if !SomeAttemptAccepted(cfg, site, net, k + 1) {
          forall j: nat | k <= j <= cfg.maxRetries
            ensures !AttemptAccepted(cfg, site, net, j)
          {
            if j > k {
              assert !SomeAttemptAccepted(cfg, site, net, k + 1);
            }
          }
        }
      }
    }
  }

  /**
   * An accepted retry loop stops at the first accepted attempt `j`, with a
   * valid HTTP verdict after `j - k + 1` further attempts.
   */
  lemma {:induction false} HttpLayerStopsAtFirst(cfg: Config, site: Option<SpecialSite>, net: Network, r: CheckResult,
                                                 k: nat, j: nat)
    requires k <= j <= cfg.maxRetries && AttemptAccepted(cfg, site, net, j)
    requires forall i: nat :: k <= i < j ==> !AttemptAccepted(cfg, site, net, i)
    ensures var s := HttpLayer(cfg, site, net, r, k);
      s.accepted && s.result.status == Valid && s.result.checkMethod == Some(Http)
      && s.result.attempts == r.attempts + (j - k + 1)
    decreases j - k
  {
    var a := Attempt(cfg, site, net, r, k);
    if k < j {
      HttpLayerStopsAtFirst(cfg, site, net, a.result, k + 1, j);
    }
  }

  /**
   * A retry loop that is never accepted runs every remaining attempt, and the
   * status it leaves is the classification of the last attempt's GET.
   */
  lemma {:induction false} HttpLayerExhausted(cfg: Config, site: Option<SpecialSite>, net: Network, r: CheckResult, k: nat)
    requires !SomeAttemptAccepted(cfg, site, net, k)
    ensures var s := HttpLayer(cfg, site, net, r, k);
      && !s.accepted
      && s.result.attempts == r.attempts + Max0(cfg.maxRetries + 1 - k)
      && (k as int <= cfg.maxRetries ==> s.result.status == Classify(cfg, site, net(Get, cfg.maxRetries as nat)))
    decreases cfg.maxRetries - k
  {
    if k as int <= cfg.maxRetries {
      assert !AttemptAccepted(cfg, site, net, k);
      var a := Attempt(cfg, site, net, r, k);
      HttpLayerExhausted(cfg, site, net, a.result, k + 1);
    }
  }

  // ---------------------------------------------------------------------
  // The browser retry loop

  /** The browser loop runs at most `retries - k + 1` more attempts and stops only after a valid verdict. */
  lemma {:induction false} BrowserAttemptsBound(retries: int, runs: nat -> BrowserRun, k: nat, acc: BrowserPhase)
    ensures var p := BrowserAttempts(retries, runs, k, acc);
      && |acc.results| <= |p.results| <= |acc.results| + Max0(retries + 1 - k)
      && p.results[..|acc.results|] == acc.results
      && acc.logs <= p.logs
      && (Max0(retries + 1 - k) > 0 ==> |p.results| > |acc.results|)
      && (|acc.results| < |p.results| < |acc.results| + Max0(retries + 1 - k) ==> p.results[|p.results| - 1].status == Valid)
    decreases retries - k
  {
    if k as int <= retries {
      var next := NextPhase(runs, k, acc);
      if runs(k).verdict.status != Valid {
        BrowserAttemptsBound(retries, runs, k + 1, next);
        var p := BrowserAttempts(retries, runs, k + 1, next);
        assert p.results[..|acc.results|] == p.results[..|next.results|][..|acc.results|];
      }
    }
  }

  /** With the first valid verdict at attempt `j`, the loop stops there and reports it. */
  lemma {:induction false} BrowserAttemptsFirstValid(retries: int, runs: nat -> BrowserRun, k: nat, acc: BrowserPhase, j: nat)
    requires k <= j && j as int <= retries && runs(j).verdict.status == Valid
    requires forall i: nat :: k <= i < j ==> runs(i).verdict.status != Valid
    ensures var p := BrowserAttempts(retries, runs, k, acc);
      |p.results| == |acc.results| + (j - k + 1) && LastResult(p.results) == Some(runs(j).verdict)
    decreases j - k
  {
    if k < j {
      BrowserAttemptsFirstValid(retries, runs, k + 1, NextPhase(runs, k, acc), j);
    }
  }

  /** With no valid verdict, every attempt runs and the last one is reported. */
  lemma {:induction false} BrowserAttemptsNoneValid(retries: int, runs: nat -> BrowserRun, k: nat, acc: BrowserPhase)
    requires forall i: nat :: k <= i <= retries ==> runs(i).verdict.status != Valid
    ensures var p := BrowserAttempts(retries, runs, k, acc);
      && |p.results| == |acc.results| + Max0(retries + 1 - k)
      && LastResult(p.results) == if k as int <= retries then Some(runs(retries as nat).verdict) else LastResult(acc.results)
    decreases retries - k
  {
    if k as int <= retries {
      BrowserAttemptsNoneValid(retries, runs, k + 1, NextPhase(runs, k, acc));
    }
  }

  // ---------------------------------------------------------------------
  // Escalation

  predicate BrowserValidAt(cfg: Config, site: Option<SpecialSite>, browser: BrowserOracle, i: nat)
  {
    BrowserVerdict(cfg, site, browser(i)).status == Valid
  }

  predicate FallbackAllowed(cfg: Config, site: Option<SpecialSite>)
  {
    cfg.headlessBrowser.treatErrorsAsValid || TreatAll(site)
  }

  lemma RunVerdict(cfg: Config, site: Option<SpecialSite>, link: string, browser: BrowserOracle, i: nat)
    ensures BrowserRuns(cfg, site, link, browser)(i).verdict == BrowserVerdict(cfg, site, browser(i))
  {
  }

  /** What every escalation outcome keeps from the HTTP result. */
  predicate EscalationKeeps(r: CheckResult, o: CheckResult)
  {
    SameResource(r, o) && o.attempts == r.attempts && r.logs + [Escalated] <= o.logs
  }

  /** The phase the browser loop of `checkLink` produces for the runs `runs`. */
  function Phase(cfg: Config, r: CheckResult, runs: nat -> BrowserRun): BrowserPhase
  {
    BrowserAttempts(cfg.headlessBrowser.retries, runs, 0, BrowserPhase([], r.logs + [Escalated]))
  }

  lemma ConcludeFirstValid(cfg: Config, site: Option<SpecialSite>, r: CheckResult, runs: nat -> BrowserRun, j: nat)
    requires j as int <= cfg.headlessBrowser.retries && runs(j).verdict.status == Valid
    requires forall i: nat :: i < j ==> runs(i).verdict.status != Valid
    ensures var out := Conclude(cfg, site, r.(logs := r.logs + [Escalated]), Phase(cfg, r, runs));
      var v := runs(j).verdict;
      && out.Done? && EscalationKeeps(r, out.result)
      && out.result.status == Valid && out.result.checkMethod == Some(Browser)
      && out.result.statusCode == v.statusCode && out.result.browserCheck == Some(v)
      && out.result.errorMessage == r.errorMessage && out.result.validatedWithFallback == r.validatedWithFallback
  {
    var start := BrowserPhase([], r.logs + [Escalated]);
    BrowserAttemptsFirstValid(cfg.headlessBrowser.retries, runs, 0, start, j);
    BrowserAttemptsBound(cfg.headlessBrowser.retries, runs, 0, start);
  }

  lemma ConcludeNoneValid(cfg: Config, site: Option<SpecialSite>, r: CheckResult, runs: nat -> BrowserRun)
    requires forall i: nat :: i as int <= cfg.headlessBrowser.retries ==> runs(i).verdict.status != Valid
    ensures var out := Conclude(cfg, site, r.(logs := r.logs + [Escalated]), Phase(cfg, r, runs));
      && (FallbackAllowed(cfg, site) ==>
            && out.Done? && EscalationKeeps(r, out.result)
            && out.result.status == Valid && out.result.checkMethod == Some(BrowserFallback)
            && out.result.validatedWithFallback && out.result.statusCode == r.statusCode)
      && (!FallbackAllowed(cfg, site) && cfg.headlessBrowser.retries >= 0 ==>
            var v := runs(cfg.headlessBrowser.retries as nat).verdict;
            && out.Done? && EscalationKeeps(r, out.result)
            && out.result.status == r.status && out.result.checkMethod == r.checkMethod
            && out.result.statusCode == r.statusCode && out.result.browserCheck == Some(v)
            && out.result.errorMessage == Some("HTTP: " + OrElse(r.errorMessage, StatusName(r.status))
                                               + "; 浏览器: " + OrElse(v.errorMessage, StatusName(v.status))))
  {
    var start := BrowserPhase([], r.logs + [Escalated]);
    BrowserAttemptsNoneValid(cfg.headlessBrowser.retries, runs, 0, start);
    BrowserAttemptsBound(cfg.headlessBrowser.retries, runs, 0, start);
  }

  /** The first valid browser verdict, at attempt `j`, makes the link valid by the browser with that verdict's status code. */
  lemma EscalateBrowserSuccess(cfg: Config, site: Option<SpecialSite>, browser: BrowserOracle, r: CheckResult, j: nat)
    requires j as int <= cfg.headlessBrowser.retries && BrowserValidAt(cfg, site, browser, j)
    requires forall i: nat :: i < j ==> !BrowserValidAt(cfg, site, browser, i)
    ensures var out := Escalate(cfg, site, browser, r);
      var v := BrowserVerdict(cfg, site, browser(j));
      && out.Done? && EscalationKeeps(r, out.result)
      && out.result.status == Valid && out.result.checkMethod == Some(Browser)
      && out.result.statusCode == v.statusCode && out.result.browserCheck == Some(v)
      && out.result.errorMessage == r.errorMessage && out.result.validatedWithFallback == r.validatedWithFallback
  {
    var runs := BrowserRuns(cfg, site, r.link, browser);
    RunsInvalidBefore(cfg, site, r.link, browser, j);
    RunVerdict(cfg, site, r.link, browser, j);
    ConcludeFirstValid(cfg, site, r, runs, j);
  }

  /** Attempts whose probe gives no valid verdict are the runs that are not valid. */
  lemma RunsInvalidBefore(cfg: Config, site: Option<SpecialSite>, link: string, browser: BrowserOracle, j: nat)
    requires forall i: nat :: i < j ==> !BrowserValidAt(cfg, site, browser, i)
    ensures forall i: nat :: i < j ==> BrowserRuns(cfg, site, link, browser)(i).verdict.status != Valid
  {
    forall i: nat | i < j
      ensures BrowserRuns(cfg, site, link, browser)(i).verdict.status != Valid
    {
      RunVerdict(cfg, site, link, browser, i);
      assert !BrowserValidAt(cfg, site, browser, i);
    }
  }

  /** No valid browser verdict, but errors or the site's statuses are treated as valid: a fallback verdict. */
  lemma EscalateFallback(cfg: Config, site: Option<SpecialSite>, browser: BrowserOracle, r: CheckResult)
    requires forall i: nat :: i as int <= cfg.headlessBrowser.retries ==> !BrowserValidAt(cfg, site, browser, i)
    requires FallbackAllowed(cfg, site)
    ensures var out := Escalate(cfg, site, browser, r);
      && out.Done? && EscalationKeeps(r, out.result)
      && out.result.status == Valid && out.result.checkMethod == Some(BrowserFallback)
      && out.result.validatedWithFallback && out.result.statusCode == r.statusCode
  {
    var runs := BrowserRuns(cfg, site, r.link, browser);
    forall i: nat | i as int <= cfg.headlessBrowser.retries
      ensures runs(i).verdict.status != Valid
    {
      RunVerdict(cfg, site, r.link, browser, i);
      assert !BrowserValidAt(cfg, site, browser, i);
    }
    ConcludeNoneValid(cfg, site, r, runs);
  }

  /**
   * No valid browser verdict and no fallback: the HTTP status stays, and the
   * message joins the HTTP reason with the last browser verdict's reason.
   */
  lemma EscalateBothFail(cfg: Config, site: Option<SpecialSite>, browser: BrowserOracle, r: CheckResult)
    requires cfg.headlessBrowser.retries >= 0
    requires forall i: nat :: i as int <= cfg.headlessBrowser.retries ==> !BrowserValidAt(cfg, site, browser, i)
    requires !FallbackAllowed(cfg, site)
    ensures var out := Escalate(cfg, site, browser, r);
      var v := BrowserVerdict(cfg, site, browser(cfg.headlessBrowser.retries as nat));
      && out.Done? && EscalationKeeps(r, out.result)
      && out.result.status == r.status && out.result.checkMethod == r.checkMethod
      && out.result.statusCode == r.statusCode && out.result.browserCheck == Some(v)
      && out.result.errorMessage == Some("HTTP: " + OrElse(r.errorMessage, StatusName(r.status))
                                         + "; 浏览器: " + OrElse(v.errorMessage, StatusName(v.status)))
  {
    var runs := BrowserRuns(cfg, site, r.link, browser);
    forall i: nat | i as int <= cfg.headlessBrowser.retries
      ensures runs(i).verdict.status != Valid
    {
      RunVerdict(cfg, site, r.link, browser, i);
      assert !BrowserValidAt(cfg, site, browser, i);
    }
    ConcludeNoneValid(cfg, site, r, runs);
  }

  /** A negative browser retry count runs no browser attempt; without a fallback the check then throws. */
  lemma EscalateNoBrowserAttempt(cfg: Config, site: Option<SpecialSite>, browser: BrowserOracle, r: CheckResult)
    requires cfg.headlessBrowser.retries < 0
    ensures var out := Escalate(cfg, site, browser, r);
      && (!FallbackAllowed(cfg, site) ==> out == Threw(NullBrowserResult))
      && (FallbackAllowed(cfg, site) ==> out.Done? && out.result.browserCheck == None
                                         && out.result.checkMethod == Some(BrowserFallback))
  {
  }

  lemma ConcludeAttempted(cfg: Config, site: Option<SpecialSite>, r: CheckResult, runs: nat -> BrowserRun)
    requires cfg.headlessBrowser.retries >= 0
    ensures var out := Conclude(cfg, site, r.(logs := r.logs + [Escalated]), Phase(cfg, r, runs));
      out.Done? && out.result.browserCheck.Some? && EscalationKeeps(r, out.result)
  {
    BrowserAttemptsBound(cfg.headlessBrowser.retries, runs, 0, BrowserPhase([], r.logs + [Escalated]));
  }

  // ---------------------------------------------------------------------
  // `checkLink` as a whole

  predicate Describes(o: CheckResult, res: Resource)
  {
    o.id == res.id && o.title == res.title && o.link == res.link && o.category == res.category
  }

  /** The special site `checkLink` applies to a resource. */
  function SiteOf(cfg: Config, matches: PatternTest, res: Resource): Option<SpecialSite>
  {
    GetSpecialSiteConfig(cfg, matches, res.link)
  }

  /** An accepted HTTP answer ends the check at once: valid by HTTP, no browser check, at most `maxRetries+1` attempts. */
  lemma CheckLinkAccepted(cfg: Config, matches: PatternTest, net: Network, browser: BrowserOracle, res: Resource)
    requires SomeAttemptAccepted(cfg, SiteOf(cfg, matches, res), net, 0)
    ensures var out := CheckLinkSpec(cfg, matches, net, browser, res);
      && out.Done? && Describes(out.result, res)
      && out.result.status == Valid && out.result.checkMethod == Some(Http) && out.result.browserCheck == None
      && 1 <= out.result.attempts <= cfg.maxRetries + 1
  {
    var site := SiteOf(cfg, matches, res);
    HttpLayerAccepted(cfg, site, net, InitialResult(cfg, res, site), 0);
    HttpLayerKeeps(cfg, site, net, InitialResult(cfg, res, site), 0);
  }

  /**
   * With no accepted HTTP answer, every attempt is made; without layered
   * checking the verdict is the last GET's classification (or the initial
   * `valid` when the retry loop never ran), and with it the browser layer
   * decides, recording a browser result whenever it makes an attempt.
   */
  lemma CheckLinkNotAccepted(cfg: Config, matches: PatternTest, net: Network, browser: BrowserOracle, res: Resource)
    requires !SomeAttemptAccepted(cfg, SiteOf(cfg, matches, res), net, 0)
    ensures var out := CheckLinkSpec(cfg, matches, net, browser, res);
      && (out.Done? ==> Describes(out.result, res) && out.result.attempts == Max0(cfg.maxRetries + 1))
      && (out.Done? && out.result.status != Valid ==> |out.result.logs| > 0 && out.result.logs[|out.result.logs| - 1] == AllFailed)
      && (!cfg.layeredChecking ==>
            && out.Done? && out.result.browserCheck == None
            && out.result.status == (if cfg.maxRetries >= 0
                                     then Classify(cfg, SiteOf(cfg, matches, res), net(Get, cfg.maxRetries as nat))
                                     else Valid))
      && (cfg.layeredChecking && cfg.headlessBrowser.retries >= 0 ==> out.Done? && out.result.browserCheck.Some?)
  {
    var site := SiteOf(cfg, matches, res);
    var init := InitialResult(cfg, res, site);
    HttpLayerKeeps(cfg, site, net, init, 0);
    HttpLayerExhausted(cfg, site, net, init, 0);
    var r := HttpLayer(cfg, site, net, init, 0).result;
    if cfg.layeredChecking && cfg.headlessBrowser.retries >= 0 {
      ConcludeAttempted(cfg, site, r, BrowserRuns(cfg, site, r.link, browser));
    }
    if cfg.layeredChecking {
      EscalateKeeps(cfg, site, browser, r);
    }
  }

  /** Whatever the browser layer concludes keeps the resource and the attempt count. */
  lemma EscalateKeeps(cfg: Config, site: Option<SpecialSite>, browser: BrowserOracle, r: CheckResult)
    ensures var out := Escalate(cfg, site, browser, r);
      out.Done? ==> EscalationKeeps(r, out.result)
                    && (out.result.status != Valid ==> out.result.logs[|out.result.logs| - 1] == AllFailed)
  {
    var runs := BrowserRuns(cfg, site, r.link, browser);
    var start := BrowserPhase([], r.logs + [Escalated]);
    BrowserAttemptsBound(cfg.headlessBrowser.retries, runs, 0, start);
    ConcludeKeeps(cfg, site, r.(logs := r.logs + [Escalated]), BrowserAttempts(cfg.headlessBrowser.retries, runs, 0, start));
  }

  /** The verdict keeps the resource, the attempt count and the loop's log, and a failure ends with `AllFailed`. */
  lemma ConcludeKeeps(cfg: Config, site: Option<SpecialSite>, r1: CheckResult, phase: BrowserPhase)
    requires r1.logs <= phase.logs
    ensures var out := Conclude(cfg, site, r1, phase);
      out.Done? ==> SameResource(r1, out.result) && out.result.attempts == r1.attempts && r1.logs <= out.result.logs
                    && (out.result.status != Valid ==> out.result.logs[|out.result.logs| - 1] == AllFailed)
  {
  }

  /** A browser check is recorded only when HTTP never accepted and layered checking is on. */
  lemma CheckLinkEscalatesOnlyAfterHttp(cfg: Config, matches: PatternTest, net: Network, browser: BrowserOracle, res: Resource)
    ensures var out := CheckLinkSpec(cfg, matches, net, browser, res);
      out.Done? && out.result.browserCheck.Some? ==>
        cfg.layeredChecking && !SomeAttemptAccepted(cfg, SiteOf(cfg, matches, res), net, 0)
  {
    var site := SiteOf(cfg, matches, res);
    HttpLayerAccepted(cfg, site, net, InitialResult(cfg, res, site), 0);
    HttpLayerKeeps(cfg, site, net, InitialResult(cfg, res, site), 0);
  }

  /**
   * `checkLink` rejects only when the browser layer is entered with a negative
   * retry count and no fallback applies: it then reads a field of `null`.
   */
  lemma CheckLinkThrows(cfg: Config, matches: PatternTest, net: Network, browser: BrowserOracle, res: Resource)
    ensures CheckLinkSpec(cfg, matches, net, browser, res).Threw? <==>
      && !SomeAttemptAccepted(cfg, SiteOf(cfg, matches, res), net, 0)
      && cfg.layeredChecking && cfg.headlessBrowser.retries < 0
      && !FallbackAllowed(cfg, SiteOf(cfg, matches, res))
  {
    var site := SiteOf(cfg, matches, res);
    var init := InitialResult(cfg, res, site);
    HttpLayerAccepted(cfg, site, net, init, 0);
    var r := HttpLayer(cfg, site, net, init, 0).result;
    if cfg.headlessBrowser.retries >= 0 {
      ConcludeAttempted(cfg, site, r, BrowserRuns(cfg, site, r.link, browser));
    } else {
      EscalateNoBrowserAttempt(cfg, site, browser, r);
    }
  }
}
