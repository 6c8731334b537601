// The counts and lists `generateReport` in scripts/linkChecker.js writes to
// the JSON report. Percentages, rates and average response times are float
// arithmetic and are not part of this model.

module LinkReport {
  import opened Wrappers
  import opened Text
  import opened Seqs
  import opened Tally
  import opened LinkChecker

  datatype StatusCounts = StatusCounts(invalid: nat, timeout: nat, error: nat)

  datatype MethodStats = MethodStats(http: nat, browser: nat, browserFallback: nat, browserCheckAttempts: nat)

  datatype BrowserSummary = BrowserSummary(status: Status, statusCode: Option<nat>, errorMessage: Option<string>)

  /** An entry of `problemLinks`. */
  datatype ProblemLink = ProblemLink(
    id: string, title: string, link: string, category: Option<string>,
    status: Status, statusCode: Option<nat>, errorMessage: Option<string>, attempts: nat,
    logs: seq<LogEvent>, browserCheck: Option<BrowserSummary>)

  /** An entry of `allLinks`. */
  datatype LinkSummary = LinkSummary(
    id: string, title: string, link: string, category: Option<string>,
    status: Status, statusCode: Option<nat>, checkMethod: Option<CheckMethod>)

  datatype Report = Report(
    totalLinks: nat, validLinks: nat, invalidLinks: nat,
    invalidByStatus: StatusCounts, invalidByCategory: Groups, methodStats: MethodStats,
    problemLinks: seq<ProblemLink>, allLinks: seq<LinkSummary>)

  const Uncategorized: string := "未分类"

  predicate IsValid(r: CheckResult) { r.status == Valid }
  predicate NotValid(r: CheckResult) { r.status != Valid }
  predicate IsInvalid(r: CheckResult) { r.status == Invalid }
  predicate IsTimeout(r: CheckResult) { r.status == Timeout }
  predicate IsError(r: CheckResult) { r.status == Error }
  predicate ValidByHttp(r: CheckResult) { r.checkMethod == Some(Http) && r.status == Valid }
  predicate ValidByBrowser(r: CheckResult) { r.checkMethod == Some(Browser) && r.status == Valid }
  predicate ValidByFallback(r: CheckResult) { r.checkMethod == Some(BrowserFallback) && r.status == Valid }
  predicate HasBrowserCheck(r: CheckResult) { r.browserCheck.Some? }

  /** The key a problem link is counted under: its category, or '未分类' when it has none. */
  function CategoryKey(r: CheckResult): (k: string)
    ensures r.category.Some? && r.category.value != "" ==> k == r.category.value
    ensures r.category.None? || r.category.value == "" ==> k == Uncategorized
  {
    OrElse(r.category, Uncategorized)
  }

  function ToProblem(r: CheckResult): ProblemLink
  {
    ProblemLink(r.id, r.title, r.link, r.category, r.status, r.statusCode, r.errorMessage, r.attempts, r.logs,
                match r.browserCheck
                case Some(b) => Some(BrowserSummary(b.status, b.statusCode, b.errorMessage))
                case None => None)
  }

  function ToSummary(r: CheckResult): LinkSummary
  {
    LinkSummary(r.id, r.title, r.link, r.category, r.status, r.statusCode, r.checkMethod)
  }

  /** The three problem statuses split the problem links: their counts add up to the number of problem links. */
  lemma StatusesPartitionProblems(results: seq<CheckResult>)
    ensures var bad := Filter(results, NotValid);
      Count(bad, IsInvalid) + Count(bad, IsTimeout) + Count(bad, IsError) == |bad|
  {
    var bad := Filter(results, NotValid);
    CountPartition(bad, IsInvalid, IsTimeout, IsError, NotValid);
    FilterAll(bad, NotValid);
  }

  /** `methodStats` counts only valid results, each under at most one method. */
  lemma MethodStatsBound(results: seq<CheckResult>)
    ensures Count(results, ValidByHttp) + Count(results, ValidByBrowser) + Count(results, ValidByFallback)
            <= Count(results, IsValid)
  {
    CountPartition(results, ValidByHttp, ValidByBrowser, ValidByFallback, IsValid);
  }

  method GenerateReport(results: seq<CheckResult>) returns (report: Report)
    ensures report.totalLinks == |results| && report.validLinks + report.invalidLinks == report.totalLinks
    ensures report.invalidLinks == Count(results, NotValid)
    ensures var s := report.invalidByStatus; s.invalid + s.timeout + s.error == report.invalidLinks
    ensures var s := report.invalidByStatus; var bad := Filter(results, NotValid);
      s.invalid == Count(bad, IsInvalid) && s.timeout == Count(bad, IsTimeout) && s.error == Count(bad, IsError)
    ensures var g := report.invalidByCategory;
      var keys := Map(Filter(results, NotValid), CategoryKey);
      && DistinctKeys(g) && SumCounts(g) == report.invalidLinks
      && (forall i :: 0 <= i < |g| ==> g[i].1 == multiset(keys)[g[i].0])
      && (forall k :: 0 <= k < |keys| ==> IndexOf(g, keys[k]).Some?)
    ensures var m := report.methodStats;
      m.http + m.browser + m.browserFallback <= report.validLinks
      && m.http == Count(results, ValidByHttp) && m.browser == Count(results, ValidByBrowser)
      && m.browserFallback == Count(results, ValidByFallback)
      && m.browserCheckAttempts == Count(results, HasBrowserCheck)
    ensures |report.problemLinks| == report.invalidLinks
      && report.problemLinks == Map(Filter(results, NotValid), ToProblem)
      && forall k :: 0 <= k < |report.problemLinks| ==> report.problemLinks[k].status != Valid
    ensures |report.allLinks| == report.totalLinks
      && forall k :: 0 <= k < |results| ==> report.allLinks[k] == ToSummary(results[k])
  {
    var validLinks := Filter(results, IsValid);
    var invalidLinks := Filter(results, NotValid);
    FilterComplement(results, IsValid, NotValid);
    var methodStats := MethodStats(Count(results, ValidByHttp), Count(results, ValidByBrowser),
                                   Count(results, ValidByFallback), Count(results, HasBrowserCheck));
    MethodStatsBound(results);
    var byStatus := StatusCounts(Count(invalidLinks, IsInvalid), Count(invalidLinks, IsTimeout),
                                 Count(invalidLinks, IsError));
    StatusesPartitionProblems(results);
    var keys := Map(invalidLinks, CategoryKey);
    var byCategory := CountByKey(keys);
    TallyOfCounts(keys);
    report := Report(|results|, |validLinks|, |invalidLinks|, byStatus, byCategory, methodStats,
                     Map(invalidLinks, ToProblem), Map(results, ToSummary));
  }
}
