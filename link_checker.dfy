// The two-layer link verdict of scripts/linkChecker.js: an HTTP layer that
// sends HEAD and then GET in up to maxRetries+1 attempts, and a headless
// browser layer that runs only when no HTTP answer was accepted.
//
// Every network request and every browser probe is an oracle outcome:
// `Network` gives the outcome of the request of a verb in a given attempt,
// `BrowserOracle` the outcome of a given browser attempt, and `PatternTest`
// the verdict of a special site's domain regular expression on a URL.

module LinkChecker {
  import opened Wrappers
  import opened Text
  import opened LinkConfig
  import Seqs

  datatype Status = Valid | Invalid | Timeout | Error

  function StatusName(s: Status): string
  {
    match s
    case Valid => "valid"
    case Invalid => "invalid"
    case Timeout => "timeout"
    case Error => "error"
  }

  datatype CheckMethod = Http | Browser | BrowserFallback

  datatype Verb = Head | Get

  /** An answer with a status code, or a thrown request error with its `code` and `message` ("" when absent). */
  datatype HttpOutcome = Response(status: nat) | Failure(code: string, message: string)

  type Network = (Verb, nat) -> HttpOutcome

  /**
   * Where a browser probe threw: launching the browser, creating the page,
   * navigating, or inspecting the page after its status was logged.
   */
  datatype ThrowPoint = InLaunch | InNewPage | InNavigation | InInspection(status: Option<nat>)

  /**
   * What the browser saw: navigation status (None when there was no response),
   * body, bounding box, text length; or the message of an error and where it
   * was thrown.
   */
  datatype PageOutcome =
    | Loaded(status: Option<nat>, bodyPresent: bool, boxNonEmpty: bool, textLength: nat)
    | Thrown(message: string, at: ThrowPoint)

  /** A probe also says whether closing the page and browser threw. */
  datatype Probe = Probe(outcome: PageOutcome, closeError: Option<string>)

  type BrowserOracle = nat -> Probe

  type PatternTest = (string, string) -> bool

  datatype BrowserResult = BrowserResult(
    status: Status,
    statusCode: Option<nat>,
    contentValid: Option<bool>,
    errorMessage: Option<string>,
    checkMethod: Option<CheckMethod>)

  /** One `addLog` call; timestamps and the wording of the messages are not modelled. */
  datatype LogEvent =
    | SiteIdentified(site: Option<string>)
    | RetryNotice(attempt: nat)
    | HeadSent
    | HeadAnswered(status: nat)
    | HttpValid(verb: Verb, status: nat)
    | HeadRejected(status: nat)
    | GetAnswered(status: nat)
    | GetRejected(status: nat)
    | GetFailed(message: string)
    | HeadFailed(message: string, code: string)
    | GetFallback
    | GetAlsoFailed(message: string)
    | TimedOut
    | Refused
    | RequestError(detail: string)
    | Escalated
    | BrowserRetryNotice(attempt: nat)
    | BrowserSiteDetected(site: Option<string>)
    | BrowserStarted(link: string)
    | BrowserLaunched
    | PageCreated
    | Navigating(link: string)
    | LoadWaited(ms: nat)
    | NavigationStatus(navigationStatus: Option<nat>)
    | NoBody
    | EmptyVisualIgnored
    | EmptyVisual
    | VisualOk
    | DomTooShort(length: nat)
    | DomOk(length: nat)
    | BrowserValid
    | BrowserInvalid(message: string)
    | BrowserThrew(message: string)
    | NavigationTimeout
    | ConnectionRefused
    | BrowserClosed
    | CloseFailed(message: string)
    | BrowserConfirmed
    | FallbackAccepted
    | BrowserAlsoFailed
    | AllFailed

  datatype Resource = Resource(id: string, title: string, link: string, category: Option<string>)

  datatype CheckResult = CheckResult(
    id: string,
    title: string,
    link: string,
    category: Option<string>,
    status: Status,
    statusCode: Option<nat>,
    checkMethod: Option<CheckMethod>,
    attempts: nat,
    errorMessage: Option<string>,
    browserCheck: Option<BrowserResult>,
    validatedWithFallback: bool,
    logs: seq<LogEvent>)

  /** `checkLink` either resolves with a result or rejects with an exception message. */
  datatype Checked = Done(result: CheckResult) | Threw(message: string)

  const UnknownError: string := "未知错误"
  const BrowserDisabled: string := "无头浏览器检测未启用"
  const NoBodyMessage: string := "未找到页面body元素"
  const EmptyVisualMessage: string := "页面视觉内容为空"
  const NoStatusMessage: string := "无法获取状态码"
  /** What V8 throws when `browserResult.errorMessage` is read while `browserResult` is null. */
  const NullBrowserResult: string := "Cannot read properties of null (reading 'errorMessage')"

  function InvalidStatusMessage(status: nat): string
  {
    "无效状态码: " + NatToString(status)
  }

  function TooLittleContentMessage(length: nat): string
  {
    "页面内容太少 (" + NatToString(length) + " 字符)"
  }

  function StatusOutOfRangeMessage(status: nat): string
  {
    "状态码 " + NatToString(status) + " 不在有效范围内"
  }

  function OrUnknown(message: string): (r: string)
    ensures r != ""
  {
    if message == "" then UnknownError else message
  }

  // ---------------------------------------------------------------------
  // Special sites

  predicate SiteMatches(matches: PatternTest, site: SpecialSite, url: string)
  {
    site.domainPattern.Some? && matches(site.domainPattern.value, url)
  }

  function FirstMatchIndex(sites: seq<SpecialSite>, matches: PatternTest, url: string): (i: nat)
    ensures i <= |sites|
    ensures i < |sites| ==> SiteMatches(matches, sites[i], url)
    ensures forall j :: 0 <= j < i ==> !SiteMatches(matches, sites[j], url)
  {
    if sites == [] then 0
    else if SiteMatches(matches, sites[0], url) then 0
    else 1 + FirstMatchIndex(sites[1..], matches, url)
  }

  /** `getSpecialSiteConfig`: the first entry, in `specialSites` order, whose pattern matches the URL. */
  function GetSpecialSiteConfig(cfg: Config, matches: PatternTest, url: string): (r: Option<SpecialSite>)
    ensures r.None? <==> forall j :: 0 <= j < |cfg.specialSites| ==> !SiteMatches(matches, cfg.specialSites[j], url)
    ensures r.Some? ==> exists i :: 0 <= i < |cfg.specialSites| && cfg.specialSites[i] == r.value
                                    && SiteMatches(matches, cfg.specialSites[i], url)
                                    && forall j :: 0 <= j < i ==> !SiteMatches(matches, cfg.specialSites[j], url)
  {
    var i := FirstMatchIndex(cfg.specialSites, matches, url);
    if i < |cfg.specialSites| then Some(cfg.specialSites[i]) else None
  }

  predicate TreatAll(site: Option<SpecialSite>)
  {
    site.Some? && site.value.treatAllStatusCodesAsValid
  }

  /** The HTTP layer's acceptance test: any status for a treat-all site, else membership in `validStatusCodes`. */
  predicate Accepts(cfg: Config, site: Option<SpecialSite>, status: nat)
  {
    TreatAll(site) || status in cfg.validStatusCodes
  }

  // ---------------------------------------------------------------------
  // The browser layer (`checkLinkWithBrowser`)

  function DetectionMethod(cfg: Config, site: Option<SpecialSite>): string
  {
    if site.Some? && site.value.detectionMethod != "" then site.value.detectionMethod
    else cfg.headlessBrowser.detectionMethod
  }

  function MinContentLength(site: Option<SpecialSite>): (n: nat)
    ensures n > 0
  {
    if site.Some? && site.value.minDomContentLength != 0 then site.value.minDomContentLength else 50
  }

  predicate BrowserEnabled(cfg: Config)
  {
    cfg.layeredChecking && cfg.headlessBrowser.enabled
  }

  /** A status is usable by the browser check only when it is present and not 0 (`status && ...`). */
  predicate StatusPresent(status: Option<nat>)
  {
    status.Some? && status.value != 0
  }

  predicate BrowserStatusValid(cfg: Config, site: Option<SpecialSite>, status: Option<nat>)
  {
    TreatAll(site) || (StatusPresent(status) && status.value in cfg.validStatusCodes)
  }

  datatype ContentCheck = ContentCheck(valid: bool, message: string, logs: seq<LogEvent>)

  predicate IgnoresEmptyVisual(site: Option<SpecialSite>)
  {
    site.Some? && site.value.ignoreEmptyVisualContent
  }

  predicate UsesVisual(m: string)
  {
    m == "visual" || m == "both"
  }

  predicate UsesDom(m: string)
  {
    m == "dom" || m == "both"
  }

  function VisualCheck(site: Option<SpecialSite>, bodyPresent: bool, boxNonEmpty: bool): ContentCheck
  {
    if !bodyPresent then ContentCheck(false, NoBodyMessage, [NoBody])
    else if !boxNonEmpty then
      if IgnoresEmptyVisual(site) then ContentCheck(true, "", [EmptyVisualIgnored])
      else ContentCheck(false, EmptyVisualMessage, [EmptyVisual])
    else ContentCheck(true, "", [VisualOk])
  }

  function DomCheck(site: Option<SpecialSite>, before: ContentCheck, textLength: nat): ContentCheck
  {
    if textLength < MinContentLength(site) then
      ContentCheck(false, TooLittleContentMessage(textLength), before.logs + [DomTooShort(textLength)])
    else before.(logs := before.logs + [DomOk(textLength)])
  }

  /** The visual check runs for 'visual' and 'both', the DOM check for 'dom' and 'both', in that order. */
  function ContentVerdict(cfg: Config, site: Option<SpecialSite>, bodyPresent: bool, boxNonEmpty: bool, textLength: nat)
    : (c: ContentCheck)
    ensures var m := DetectionMethod(cfg, site);
      c.valid <==> (UsesVisual(m) ==> bodyPresent && (boxNonEmpty || IgnoresEmptyVisual(site)))
                   && (UsesDom(m) ==> textLength >= MinContentLength(site))
    ensures var m := DetectionMethod(cfg, site);
      !c.valid ==> c.message == (if UsesDom(m) && textLength < MinContentLength(site) then TooLittleContentMessage(textLength)
                                 else if !bodyPresent then NoBodyMessage
                                 else EmptyVisualMessage)
  {
    var m := DetectionMethod(cfg, site);
    var visual := if UsesVisual(m) then VisualCheck(site, bodyPresent, boxNonEmpty)
                  else ContentCheck(true, "", []);
    if UsesDom(m) then DomCheck(site, visual, textLength) else visual
  }

  function ThrownStatus(message: string): Status
  {
    if Contains(message, "timeout") || Contains(message, "Navigation Timeout Exceeded") then Timeout else Error
  }

  function BrowserVerdict(cfg: Config, site: Option<SpecialSite>, probe: Probe): (r: BrowserResult)
    ensures !BrowserEnabled(cfg) ==> r == BrowserResult(Error, None, None, Some(BrowserDisabled), None)
    ensures BrowserEnabled(cfg) ==> r.checkMethod == Some(Browser)
    ensures BrowserEnabled(cfg) && probe.outcome.Loaded? ==>
      var o := probe.outcome;
      var c := ContentVerdict(cfg, site, o.bodyPresent, o.boxNonEmpty, o.textLength);
      && (r.status == Valid <==> BrowserStatusValid(cfg, site, o.status) && c.valid)
      && (r.status == Valid || r.status == Invalid)
      && r.statusCode == o.status
      && r.contentValid == Some(c.valid)
      && (r.status == Valid ==> r.errorMessage == None)
      && (!c.valid ==> r.errorMessage == Some(c.message))
      && (c.valid && !BrowserStatusValid(cfg, site, o.status) ==>
            r.errorMessage == Some(if StatusPresent(o.status) then StatusOutOfRangeMessage(o.status.value) else NoStatusMessage))
    ensures BrowserEnabled(cfg) && probe.outcome.Thrown? ==>
      var m := OrUnknown(probe.outcome.message);
      && r.status == (if Contains(m, "timeout") || Contains(m, "Navigation Timeout Exceeded") then Timeout else Error)
      && r.errorMessage == Some(m) && r.statusCode == None && r.contentValid == None
  {
    if !BrowserEnabled(cfg) then BrowserResult(Error, None, None, Some(BrowserDisabled), None)
    else match probe.outcome
      case Loaded(status, body, box, len) =>
        var content := ContentVerdict(cfg, site, body, box, len);
        var statusValid := BrowserStatusValid(cfg, site, status);
        if statusValid && content.valid then BrowserResult(Valid, status, Some(true), None, Some(Browser))
        else
          var reason := if statusValid then ""
                        else if StatusPresent(status) then StatusOutOfRangeMessage(status.value)
                        else NoStatusMessage;
          BrowserResult(Invalid, status, Some(content.valid),
                        Some(if content.valid then reason else content.message), Some(Browser))
      case Thrown(message, _) =>
        var m := OrUnknown(message);
        BrowserResult(ThrownStatus(m), None, None, Some(m), Some(Browser))
  }

  /** The property names an entry of `specialSites` can have. */
  const SiteProperties: seq<string> :=
    ["domainPattern", "treatAllStatusCodesAsValid", "detectionMethod", "ignoreEmptyVisualContent", "minDomContentLength"]

  /** `specialSites` holds `site` under the key `key`. */
  predicate StoredUnder(sites: seq<SpecialSite>, key: string, site: SpecialSite)
  {
    exists j :: 0 <= j < |sites| && sites[j].name == key && sites[j] == site
  }

  /**
   * The site label printed by `checkLinkWithBrowser`, as written: it searches the
   * matched entry's OWN property names for a key under which `specialSites`
   * holds that entry.
   */
  function BrowserSiteLabelAsWritten(sites: seq<SpecialSite>, ownKeys: seq<string>, site: SpecialSite): (r: Option<string>)
    ensures r.Some? ==> r.value in ownKeys && StoredUnder(sites, r.value, site)
    ensures r.None? <==> forall k :: 0 <= k < |ownKeys| ==> !StoredUnder(sites, ownKeys[k], site)
  {
    if ownKeys == [] then None
    else if StoredUnder(sites, ownKeys[0], site) then Some(ownKeys[0])
    else
      var r := BrowserSiteLabelAsWritten(sites, ownKeys[1..], site);
      assert forall k :: 1 <= k < |ownKeys| ==> ownKeys[k] == ownKeys[1..][k - 1];
      r
  }

  /**
   * `Object.keys` of an entry of `specialSites`: the properties it sets. An
   * optional property counts as set when it differs from its default.
   */
  function OwnKeys(site: SpecialSite): (keys: seq<string>)
    ensures forall k :: 0 <= k < |keys| ==> keys[k] in SiteProperties
  {
    (if site.domainPattern.Some? then ["domainPattern"] else [])
    + (if site.treatAllStatusCodesAsValid then ["treatAllStatusCodesAsValid"] else [])
    + (if site.detectionMethod != "" then ["detectionMethod"] else [])
    + (if site.ignoreEmptyVisualContent then ["ignoreEmptyVisualContent"] else [])
    + (if site.minDomContentLength != 0 then ["minDomContentLength"] else [])
  }

  /** With the shipped configuration the label is always `undefined`. */
  lemma {:induction false} BrowserSiteLabelAsWrittenIsUndefined(ownKeys: seq<string>, site: SpecialSite)
    requires forall k :: 0 <= k < |ownKeys| ==> ownKeys[k] in SiteProperties
    ensures BrowserSiteLabelAsWritten(Default.specialSites, ownKeys, site).None?
  {
    if ownKeys != [] {
      assert !StoredUnder(Default.specialSites, ownKeys[0], site) by {
        assert ownKeys[0] != "youtube" && ownKeys[0] != "reddit";
      }
      BrowserSiteLabelAsWrittenIsUndefined(ownKeys[1..], site);
    }
  }

  /**
   * The label `checkLink` prints, and the one intended in `checkLinkWithBrowser`:
   * the first key of `specialSites` under which the entry is stored.
   */
  function SiteKey(sites: seq<SpecialSite>, site: SpecialSite): (r: Option<string>)
    ensures r.None? <==> site !in sites
    ensures r.Some? ==> StoredUnder(sites, r.value, site)
  {
    if sites == [] then None
    else if sites[0] == site then Some(sites[0].name)
    else
      var r := SiteKey(sites[1..], site);
      assert forall j :: 1 <= j < |sites| ==> sites[j] == sites[1..][j - 1];
      r
  }

  lemma {:induction false} SiteKeyIsName(sites: seq<SpecialSite>, site: SpecialSite)
    requires site in sites
    ensures SiteKey(sites, site) == Some(site.name)
  {
    if sites[0] != site {
      SiteKeyIsName(sites[1..], site);
    }
  }

  /**
   * The progress lines of a probe up to the point where it threw, or all of
   * them for a page that loaded: launch, page, navigation, the settle wait and
   * the navigation status.
   */
  function ProgressLog(link: string, waitMs: nat, outcome: PageOutcome): (logs: seq<LogEvent>)
    ensures outcome.Loaded? || outcome.at.InInspection? ==>
      logs == [BrowserLaunched, PageCreated, Navigating(link), LoadWaited(waitMs),
               NavigationStatus(if outcome.Loaded? then outcome.status else outcome.at.status)]
    ensures outcome.Thrown? && outcome.at == InLaunch ==> logs == []
    ensures outcome.Thrown? && outcome.at == InNewPage ==> logs == [BrowserLaunched]
    ensures outcome.Thrown? && outcome.at == InNavigation ==> logs == [BrowserLaunched, PageCreated, Navigating(link)]
  {
    var navigated := [BrowserLaunched, PageCreated, Navigating(link)];
    match outcome
    case Loaded(status, _, _, _) => navigated + [LoadWaited(waitMs), NavigationStatus(status)]
    case Thrown(_, at) =>
      match at
      case InLaunch => []
      case InNewPage => [BrowserLaunched]
      case InNavigation => navigated
      case InInspection(status) => navigated + [LoadWaited(waitMs), NavigationStatus(status)]
  }

  /** The lines after the progress lines: the content checks and the verdict, or the error. */
  function OutcomeLog(cfg: Config, site: Option<SpecialSite>, probe: Probe): (logs: seq<LogEvent>)
    ensures probe.outcome.Thrown? ==> |logs| > 0 && logs[0] == BrowserThrew(OrUnknown(probe.outcome.message))
  {
    match probe.outcome
    case Loaded(status, body, box, len) =>
      var content := ContentVerdict(cfg, site, body, box, len);
      var verdict := BrowserVerdict(cfg, site, probe);
      content.logs + [if verdict.status == Valid then BrowserValid else BrowserInvalid(verdict.errorMessage.value)]
    case Thrown(message, _) =>
      var m := OrUnknown(message);
      [BrowserThrew(m)]
      + (if ThrownStatus(m) == Timeout then [NavigationTimeout]
         else if Contains(m, "net::ERR_CONNECTION_REFUSED") then [ConnectionRefused] else [])
  }

  /** The lines before the progress lines: the site line, when a site matched, and the start line. */
  function LeadLog(cfg: Config, site: Option<SpecialSite>, link: string): (logs: seq<LogEvent>)
    ensures |logs| == if site.Some? then 2 else 1
    ensures logs[|logs| - 1] == BrowserStarted(link)
    ensures site.Some? ==>
      logs[0] == BrowserSiteDetected(BrowserSiteLabelAsWritten(cfg.specialSites, OwnKeys(site.value), site.value))
  {
    (if site.Some? then [BrowserSiteDetected(BrowserSiteLabelAsWritten(cfg.specialSites, OwnKeys(site.value), site.value))]
     else [])
    + [BrowserStarted(link)]
  }

  /** The lines `checkLinkWithBrowser` adds to the result's log. */
  function BrowserLog(cfg: Config, site: Option<SpecialSite>, link: string, probe: Probe): (logs: seq<LogEvent>)
    ensures !BrowserEnabled(cfg) ==> logs == []
    ensures BrowserEnabled(cfg) ==>
      && |logs| >= 2
      && logs[|logs| - 1] == (if probe.closeError.None? then BrowserClosed else CloseFailed(probe.closeError.value))
      && BrowserStarted(link) in logs
    ensures BrowserEnabled(cfg) && site.None? ==> logs[0] == BrowserStarted(link)
    ensures BrowserEnabled(cfg) && site.Some? ==>
      logs[0] == BrowserSiteDetected(BrowserSiteLabelAsWritten(cfg.specialSites, OwnKeys(site.value), site.value))
  {
    if !BrowserEnabled(cfg) then []
    else
      LeadLog(cfg, site, link)
      + ProgressLog(link, cfg.headlessBrowser.waitUntil, probe.outcome)
      + OutcomeLog(cfg, site, probe)
      + [if probe.closeError.None? then BrowserClosed else CloseFailed(probe.closeError.value)]
  }

  /**
   * The progress lines follow the start line: every step the probe got through
   * is logged, and a thrown probe then logs its error.
   */
  lemma BrowserLogProgress(cfg: Config, site: Option<SpecialSite>, link: string, probe: Probe)
    requires BrowserEnabled(cfg)
    ensures var lead := if site.Some? then 2 else 1;
      var progress := ProgressLog(link, cfg.headlessBrowser.waitUntil, probe.outcome);
      var logs := BrowserLog(cfg, site, link, probe);
      && lead + |progress| <= |logs|
      && logs[lead..lead + |progress|] == progress
      && (probe.outcome.Thrown? ==> logs[lead + |progress|] == BrowserThrew(OrUnknown(probe.outcome.message)))
  {
    var lead := LeadLog(cfg, site, link);
    var progress := ProgressLog(link, cfg.headlessBrowser.waitUntil, probe.outcome);
    var rest := OutcomeLog(cfg, site, probe);
    var close := [if probe.closeError.None? then BrowserClosed else CloseFailed(probe.closeError.value)];
    assert BrowserLog(cfg, site, link, probe) == lead + progress + rest + close;
    Seqs.Middle(lead, progress, rest, close);
  }

  /**
   * With the shipped sites, the site line of the browser layer reads `undefined`,
   * while the line `checkLink` logs for the same entry names its key.
   */
  lemma BrowserLogPrintsUndefined(cfg: Config, site: SpecialSite, link: string, probe: Probe)
    requires cfg.specialSites == Default.specialSites && site in cfg.specialSites && BrowserEnabled(cfg)
    ensures BrowserLog(cfg, Some(site), link, probe)[0] == BrowserSiteDetected(None)
    ensures SiteKey(cfg.specialSites, site) == Some(site.name)
  {
    BrowserSiteLabelAsWrittenIsUndefined(OwnKeys(site), site);
    SiteKeyIsName(cfg.specialSites, site);
  }

  // ---------------------------------------------------------------------
  // The HTTP layer: one attempt, and the retry loop as a recursion

  /** An answer the HTTP layer accepts. */
  predicate AnswerAccepted(cfg: Config, site: Option<SpecialSite>, o: HttpOutcome)
  {
    o.Response? && Accepts(cfg, site, o.status)
  }

  /** Attempt `k` is accepted when its HEAD answer or its GET answer is. */
  predicate AttemptAccepted(cfg: Config, site: Option<SpecialSite>, net: Network, k: nat)
  {
    AnswerAccepted(cfg, site, net(Head, k)) || AnswerAccepted(cfg, site, net(Get, k))
  }

  /** The status a request outcome gives the result. */
  function Classify(cfg: Config, site: Option<SpecialSite>, o: HttpOutcome): Status
  {
    match o
    case Response(g) => if Accepts(cfg, site, g) then Valid else Invalid
    case Failure(code, _) => FailureStatus(code)
  }

  /** The fields the checks never touch. */
  predicate SameResource(a: CheckResult, b: CheckResult)
  {
    a.id == b.id && a.title == b.title && a.link == b.link && a.category == b.category
  }

  /** What an HTTP step keeps: the resource, the browser fields, and every earlier log line. */
  predicate HttpKeeps(r: CheckResult, r2: CheckResult)
  {
    SameResource(r, r2) && r2.browserCheck == r.browserCheck
    && r2.validatedWithFallback == r.validatedWithFallback && r.logs <= r2.logs
  }

  function FailureStatus(code: string): Status
  {
    if code == "ECONNABORTED" then Timeout else Error
  }

  function FailureLog(code: string, message: string): LogEvent
  {
    if code == "ECONNABORTED" then TimedOut
    else if code == "ECONNREFUSED" then Refused
    else RequestError(if code != "" then code else message)
  }

  datatype Step = Step(result: CheckResult, accepted: bool)

  /** The GET that follows a rejected HEAD answer or a failed HEAD request. */
  function GetStep(cfg: Config, site: Option<SpecialSite>, net: Network, r: CheckResult, k: nat, afterHeadFailure: bool): (s: Step)
    ensures s.accepted <==> AnswerAccepted(cfg, site, net(Get, k))
    ensures s.result.status == Classify(cfg, site, net(Get, k))
    ensures s.accepted ==> s.result.checkMethod == Some(Http)
    ensures net(Get, k).Response? ==> s.result.statusCode == Some(net(Get, k).status)
    ensures !s.accepted ==> s.result.errorMessage == Some(match net(Get, k)
                                                         case Response(g) => InvalidStatusMessage(g)
                                                         case Failure(_, m) => OrUnknown(m))
    ensures s.result.attempts == r.attempts && HttpKeeps(r, s.result)
  {
    match net(Get, k)
    case Response(g) =>
      var r1 := r.(statusCode := Some(g), logs := r.logs + [GetAnswered(g)]);
      if Accepts(cfg, site, g) then
        Step(r1.(status := Valid, checkMethod := Some(Http), logs := r1.logs + [HttpValid(Get, g)]), true)
      else
        Step(r1.(status := Invalid, checkMethod := Some(Http), errorMessage := Some(InvalidStatusMessage(g)),
                 logs := r1.logs + [GetRejected(g)]), false)
    case Failure(code, message) =>
      var m := OrUnknown(message);
      Step(r.(errorMessage := Some(m), status := FailureStatus(code),
              logs := r.logs + [if afterHeadFailure then GetAlsoFailed(m) else GetFailed(m), FailureLog(code, message)]),
           false)
  }

  /** Attempt `k` of the retry loop. */
  function Attempt(cfg: Config, site: Option<SpecialSite>, net: Network, r: CheckResult, k: nat): (s: Step)
    ensures s.accepted <==> AttemptAccepted(cfg, site, net, k)
    ensures s.accepted ==> s.result.status == Valid && s.result.checkMethod == Some(Http)
                           && s.result.statusCode.Some? && Accepts(cfg, site, s.result.statusCode.value)
    ensures !s.accepted ==> s.result.status == Classify(cfg, site, net(Get, k))
    ensures s.result.attempts == r.attempts + 1 && HttpKeeps(r, s.result)
  {
    var r0 := r.(attempts := r.attempts + 1,
                 logs := r.logs + (if k > 0 then [RetryNotice(k)] else []) + [HeadSent]);
    match net(Head, k)
    case Response(s) =>
      var r1 := r0.(statusCode := Some(s), logs := r0.logs + [HeadAnswered(s)]);
      if Accepts(cfg, site, s) then
        Step(r1.(status := Valid, checkMethod := Some(Http), logs := r1.logs + [HttpValid(Head, s)]), true)
      else
        GetStep(cfg, site, net, r1.(logs := r1.logs + [HeadRejected(s)]), k, false)
    case Failure(code, message) =>
      var m := OrUnknown(message);
      var r1 := r0.(errorMessage := Some(m), status := FailureStatus(code),
                    logs := r0.logs + [HeadFailed(m, if code != "" then code else "unknown"),
                                       FailureLog(code, message), GetFallback]);
      GetStep(cfg, site, net, r1, k, true)
  }

  /** Attempts `k`, `k+1`, … `maxRetries`, stopping at the first accepted answer. */
  function HttpLayer(cfg: Config, site: Option<SpecialSite>, net: Network, r: CheckResult, k: nat): Step
    decreases cfg.maxRetries - k
  {
    if k as int > cfg.maxRetries then Step(r, false)
    else
      var s := Attempt(cfg, site, net, r, k);
      if s.accepted then s else HttpLayer(cfg, site, net, s.result, k + 1)
  }

  // ---------------------------------------------------------------------
  // Escalation to the browser

  /** One call of `checkLinkWithBrowser`: its verdict and the lines it logs. */
  datatype BrowserRun = BrowserRun(verdict: BrowserResult, logs: seq<LogEvent>)

  function CheckLinkWithBrowser(cfg: Config, site: Option<SpecialSite>, link: string, probe: Probe): BrowserRun
  {
    BrowserRun(BrowserVerdict(cfg, site, probe), BrowserLog(cfg, site, link, probe))
  }

  /** Browser attempt `k` probes the page with the outcome `browser(k)`. */
  function BrowserRuns(cfg: Config, site: Option<SpecialSite>, link: string, browser: BrowserOracle): nat -> BrowserRun
  {
    (k: nat) => CheckLinkWithBrowser(cfg, site, link, browser(k))
  }

  datatype BrowserPhase = BrowserPhase(results: seq<BrowserResult>, logs: seq<LogEvent>)

  /** The verdict of browser attempt `k` appended to the phase so far, with its log lines. */
  function NextPhase(runs: nat -> BrowserRun, k: nat, acc: BrowserPhase): BrowserPhase
  {
    BrowserPhase(acc.results + [runs(k).verdict],
                 acc.logs + (if k > 0 then [BrowserRetryNotice(k)] else []) + runs(k).logs)
  }

  /** Browser attempts `k` … `retries`, stopping at the first valid verdict. */
  function BrowserAttempts(retries: int, runs: nat -> BrowserRun, k: nat, acc: BrowserPhase): BrowserPhase
    decreases retries - k
  {
    if k as int > retries then acc
    else
      var next := NextPhase(runs, k, acc);
      if runs(k).verdict.status == Valid then next
      else BrowserAttempts(retries, runs, k + 1, next)
  }

  function LastResult(results: seq<BrowserResult>): Option<BrowserResult>
  {
    if results == [] then None else Some(results[|results| - 1])
  }

  function Finish(r: CheckResult): CheckResult
  {
    if r.status != Valid then r.(logs := r.logs + [AllFailed]) else r
  }

  /** The verdict after the browser loop, from the phase it produced. */
  function Conclude(cfg: Config, site: Option<SpecialSite>, r1: CheckResult, phase: BrowserPhase): Checked
  {
    var last := LastResult(phase.results);
    var r2 := r1.(browserCheck := last, logs := phase.logs);
    if last.Some? && last.value.status == Valid then
      Done(Finish(r2.(status := Valid, statusCode := last.value.statusCode, checkMethod := Some(Browser),
                      logs := r2.logs + [BrowserConfirmed])))
    else if cfg.headlessBrowser.treatErrorsAsValid || TreatAll(site) then
      Done(Finish(r2.(status := Valid, checkMethod := Some(BrowserFallback), validatedWithFallback := true,
                      logs := r2.logs + [FallbackAccepted])))
    else if last.None? then Threw(NullBrowserResult)
    else
      Done(Finish(r2.(errorMessage := Some("HTTP: " + OrElse(r2.errorMessage, StatusName(r2.status))
                                           + "; 浏览器: " + OrElse(last.value.errorMessage, StatusName(last.value.status))),
                      logs := r2.logs + [BrowserAlsoFailed])))
  }

  /** The browser layer of `checkLink`, entered with the result the HTTP layer left. */
  function Escalate(cfg: Config, site: Option<SpecialSite>, browser: BrowserOracle, r: CheckResult): Checked
  {
    var r1 := r.(logs := r.logs + [Escalated]);
    Conclude(cfg, site, r1, BrowserAttempts(cfg.headlessBrowser.retries, BrowserRuns(cfg, site, r.link, browser), 0,
                                            BrowserPhase([], r1.logs)))
  }

  function InitialResult(cfg: Config, res: Resource, site: Option<SpecialSite>): CheckResult
  {
    CheckResult(res.id, res.title, res.link, res.category, Valid, None, None, 0, None, None, false,
                if site.Some? then [SiteIdentified(SiteKey(cfg.specialSites, site.value))] else [])
  }

  /** What `checkLink` resolves or rejects with, as a function of the oracles. */
  function CheckLinkSpec(cfg: Config, matches: PatternTest, net: Network, browser: BrowserOracle, res: Resource): Checked
  {
    var site := GetSpecialSiteConfig(cfg, matches, res.link);
    var http := HttpLayer(cfg, site, net, InitialResult(cfg, res, site), 0);
    if http.accepted then Done(http.result)
    else if cfg.layeredChecking then Escalate(cfg, site, browser, http.result)
    else Done(Finish(http.result))
  }

  /** The GET request of an attempt, after a rejected HEAD answer or a failed HEAD request. */
  method RunGet(cfg: Config, site: Option<SpecialSite>, net: Network, r: CheckResult, attempt: nat, afterHeadFailure: bool)
    returns (result: CheckResult, accepted: bool)
    ensures Step(result, accepted) == GetStep(cfg, site, net, r, attempt, afterHeadFailure)
  {
    result := r;
    match net(Get, attempt) {
      case Response(g) =>
        result := result.(statusCode := Some(g), logs := result.logs + [GetAnswered(g)]);
        if Accepts(cfg, site, g) {
          result := result.(status := Valid, checkMethod := Some(Http), logs := result.logs + [HttpValid(Get, g)]);
          return result, true;
        }
        result := result.(status := Invalid, checkMethod := Some(Http), errorMessage := Some(InvalidStatusMessage(g)),
                          logs := result.logs + [GetRejected(g)]);
      case Failure(code, message) =>
        var m := OrUnknown(message);
        result := result.(errorMessage := Some(m),
                          logs := result.logs + [if afterHeadFailure then GetAlsoFailed(m) else GetFailed(m)]);
        result := result.(status := FailureStatus(code), logs := result.logs + [FailureLog(code, message)]);
        assert result.logs == r.logs + [if afterHeadFailure then GetAlsoFailed(m) else GetFailed(m), FailureLog(code, message)];
    }
    accepted := false;
  }

  /** One pass of the retry loop's body: HEAD, then GET unless HEAD was accepted. */
  method RunAttempt(cfg: Config, site: Option<SpecialSite>, net: Network, r: CheckResult, attempt: nat)
    returns (result: CheckResult, accepted: bool)
    ensures Step(result, accepted) == Attempt(cfg, site, net, r, attempt)
  {
    result := r.(attempts := r.attempts + 1);
    if attempt > 0 {
      result := result.(logs := result.logs + [RetryNotice(attempt)]);
    }
    result := result.(logs := result.logs + [HeadSent]);
    assert result.logs == r.logs + (if attempt > 0 then [RetryNotice(attempt)] else []) + [HeadSent];
    match net(Head, attempt) {
      case Response(s) =>
        result := result.(statusCode := Some(s), logs := result.logs + [HeadAnswered(s)]);
        if Accepts(cfg, site, s) {
          result := result.(status := Valid, checkMethod := Some(Http), logs := result.logs + [HttpValid(Head, s)]);
          return result, true;
        }
        result := result.(logs := result.logs + [HeadRejected(s)]);
        result, accepted := RunGet(cfg, site, net, result, attempt, false);
      case Failure(code, message) =>
        var m := OrUnknown(message);
        result := result.(errorMessage := Some(m), status := FailureStatus(code));
        result := result.(logs := result.logs + [HeadFailed(m, if code != "" then code else "unknown"),
                                                 FailureLog(code, message), GetFallback]);
        result, accepted := RunGet(cfg, site, net, result, attempt, true);
    }
  }

  /** The browser-retry loop: up to `retries+1` runs, stopping at the first valid verdict. */
  method RunBrowserAttempts(retries: int, runs: nat -> BrowserRun, logsBefore: seq<LogEvent>)
    returns (browserResult: Option<BrowserResult>, browserSuccess: bool, logs: seq<LogEvent>)
    ensures browserResult == LastResult(BrowserAttempts(retries, runs, 0, BrowserPhase([], logsBefore)).results)
    ensures logs == BrowserAttempts(retries, runs, 0, BrowserPhase([], logsBefore)).logs
    ensures browserSuccess <==> browserResult.Some? && browserResult.value.status == Valid
  {
    logs := logsBefore;
    browserSuccess := false;
    browserResult := None;
    ghost var tried: seq<BrowserResult> := [];
    ghost var phase := BrowserAttempts(retries, runs, 0, BrowserPhase(tried, logs));
    var k: nat := 0;
    while k as int <= retries
      invariant BrowserAttempts(retries, runs, k, BrowserPhase(tried, logs)) == phase
      invariant browserResult == LastResult(tried)
      invariant browserResult.Some? ==> browserResult.value.status != Valid
      invariant !browserSuccess
      decreases retries - k
    {
      ghost var before := BrowserPhase(tried, logs);
      if k > 0 {
        logs := logs + [BrowserRetryNotice(k)];
      }
      var run := runs(k);
      logs := logs + run.logs;
      tried := tried + [run.verdict];
      browserResult := Some(run.verdict);
      assert BrowserPhase(tried, logs) == NextPhase(runs, k, before);
      if run.verdict.status == Valid {
        browserSuccess := true;
        break;
      }
      k := k + 1;
    }
    assert phase == BrowserPhase(tried, logs);
  }

  /** The escalation after an unsuccessful HTTP layer, and the verdict it leads to. */
  method RunEscalation(cfg: Config, site: Option<SpecialSite>, browser: BrowserOracle, r: CheckResult)
    returns (out: Checked)
    ensures out == Escalate(cfg, site, browser, r)
  {
    var result := r.(logs := r.logs + [Escalated]);
    var browserResult, browserSuccess, logs := RunBrowserAttempts(cfg.headlessBrowser.retries,
                                                                BrowserRuns(cfg, site, r.link, browser), result.logs);
    result := result.(browserCheck := browserResult, logs := logs);
    if browserSuccess {
      result := result.(status := Valid, statusCode := browserResult.value.statusCode, checkMethod := Some(Browser),
                        logs := result.logs + [BrowserConfirmed]);
    } else if cfg.headlessBrowser.treatErrorsAsValid || TreatAll(site) {
      result := result.(status := Valid, checkMethod := Some(BrowserFallback), validatedWithFallback := true,
                        logs := result.logs + [FallbackAccepted]);
    } else {
      if browserResult.None? {
        return Threw(NullBrowserResult);
      }
      result := result.(errorMessage := Some("HTTP: " + OrElse(result.errorMessage, StatusName(result.status))
                                             + "; 浏览器: " + OrElse(browserResult.value.errorMessage,
                                                                    StatusName(browserResult.value.status))),
                        logs := result.logs + [BrowserAlsoFailed]);
    }
    return Done(Finish(result));
  }

  /** `checkLink`: the retry loop, then the browser layer when no HTTP answer was accepted. */
  method CheckLink(cfg: Config, matches: PatternTest, net: Network, browser: BrowserOracle, res: Resource)
    returns (out: Checked)
    ensures out == CheckLinkSpec(cfg, matches, net, browser, res)
  {
    var site := GetSpecialSiteConfig(cfg, matches, res.link);
    var result := InitialResult(cfg, res, site);
    ghost var http := HttpLayer(cfg, site, net, result, 0);
    var maxRetries := cfg.maxRetries;
    var attempt: nat := 0;
    while attempt as int <= maxRetries
      invariant HttpLayer(cfg, site, net, result, attempt) == http
      decreases maxRetries - attempt
    {
      var accepted;
      result, accepted := RunAttempt(cfg, site, net, result, attempt);
      if accepted {
        return Done(result);
      }
      attempt := attempt + 1;
    }
    // Only an accepted answer leaves the loop early, so HTTP did not succeed here.
    assert http == Step(result, false);
    if cfg.layeredChecking {
      out := RunEscalation(cfg, site, browser, result);
    } else {
      out := Done(Finish(result));
    }
  }
}
