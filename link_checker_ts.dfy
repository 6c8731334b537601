// The older checker of scripts/linkChecker.ts: one first request, a GET
// retry only after an aborted or refused connection, no retry loop, no
// special sites and no browser layer; then batching and the report counts.
//
// The outcomes of the two requests for one resource are an oracle
// `Requests`: `Head` names the first request and `Get` the retry.

module LinkCheckerTs {
  import opened Wrappers
  import opened Text
  import opened Seqs
  import opened Tally
  import opened LinkConfig
  import opened LinkChecker
  import LinkReport

  /** The fields of a `CheckResult` in linkChecker.ts apart from the timing and header fields. */
  datatype TsResult = TsResult(
    id: string,
    title: string,
    link: string,
    category: Option<string>,
    status: Status,
    statusCode: Option<nat>,
    errorMessage: Option<string>)

  type Requests = Verb -> HttpOutcome

  const Aborted: string := "ECONNABORTED"
  const Refused: string := "ECONNREFUSED"
  const TimeoutMessage: string := "请求超时"

  function HttpStatusMessage(status: nat): string
  {
    "HTTP status: " + NatToString(status)
  }

  /** The first request's failures after which a GET is tried. */
  predicate RetriesWithGet(o: HttpOutcome)
  {
    o.Failure? && (o.code == Aborted || o.code == Refused)
  }

  /** The result and the requests sent, in order. */
  datatype TsCheck = TsCheck(result: TsResult, requests: seq<Verb>)

  function Fresh(res: Resource): TsResult
  {
    TsResult(res.id, res.title, res.link, res.category, Valid, None, None)
  }

  /** An answer is valid exactly when its status is one of `validStatusCodes`. */
  function Answered(cfg: Config, r: TsResult, status: nat): (a: TsResult)
    ensures a.statusCode == Some(status)
    ensures a.status == Valid <==> status in cfg.validStatusCodes
    ensures a.status != Valid ==> a.status == Invalid && a.errorMessage == Some(HttpStatusMessage(status))
    ensures a.status == Valid ==> a.errorMessage == r.errorMessage
    ensures a.id == r.id && a.title == r.title && a.link == r.link && a.category == r.category
  {
    var r1 := r.(statusCode := Some(status));
    if status in cfg.validStatusCodes then r1.(status := Valid)
    else r1.(status := Invalid, errorMessage := Some(HttpStatusMessage(status)))
  }

  /** `checkLink` of linkChecker.ts, including its unreachable second `ECONNABORTED` test. */
  function CheckLinkSpec(cfg: Config, req: Requests, res: Resource): (c: TsCheck)
    ensures c.result.id == res.id && c.result.title == res.title
    ensures c.result.link == res.link && c.result.category == res.category
    ensures |c.requests| >= 1 && c.requests[0] == Head
    ensures |c.requests| == 2 <==> RetriesWithGet(req(Head))
    ensures |c.requests| == 2 ==> c.requests[1] == Get
    ensures var last := req(c.requests[|c.requests| - 1]);
      && (last.Response? ==> c.result == Answered(cfg, Fresh(res), last.status))
      && (last.Failure? ==> c.result.statusCode.None? && c.result.status in {Timeout, Error})
    ensures c.result.status == Timeout ==>
      && RetriesWithGet(req(Head)) && req(Get).Failure? && req(Get).code == Aborted
      && c.result.errorMessage == Some(TimeoutMessage)
    ensures c.result.status == Error ==>
      var last := req(c.requests[|c.requests| - 1]);
      last.Failure? && c.result.errorMessage == Some(OrUnknown(last.message))
  {
    var r := Fresh(res);
    match req(Head)
    case Response(s) => TsCheck(Answered(cfg, r, s), [Head])
    case Failure(code, message) =>
      if code == Aborted || code == Refused then
        match req(Get)
        case Response(s) => TsCheck(Answered(cfg, r, s), [Head, Get])
        case Failure(getCode, getMessage) =>
          if getCode == Aborted then TsCheck(r.(status := Timeout, errorMessage := Some(TimeoutMessage)), [Head, Get])
          else TsCheck(r.(status := Error, errorMessage := Some(OrUnknown(getMessage))), [Head, Get])
      else if code == Aborted then TsCheck(r.(status := Timeout, errorMessage := Some(TimeoutMessage)), [Head])
      else TsCheck(r.(status := Error, errorMessage := Some(OrUnknown(message))), [Head])
  }

  /** A result is `timeout` only after two failed requests, the second one aborted. */
  lemma TimeoutNeedsTwoFailures(cfg: Config, req: Requests, res: Resource)
    ensures var c := CheckLinkSpec(cfg, req, res);
      c.result.status == Timeout <==>
        RetriesWithGet(req(Head)) && req(Get).Failure? && req(Get).code == Aborted
  {
  }

  /** `checkLink`: the result record is filled in field by field along the try/catch branches. */
  method CheckLink(cfg: Config, req: Requests, res: Resource) returns (result: TsResult, requests: seq<Verb>)
    ensures TsCheck(result, requests) == CheckLinkSpec(cfg, req, res)
  {
    result := TsResult(res.id, res.title, res.link, res.category, Valid, None, None);
    requests := [Head];
    var response := req(Head);
    if response.Response? {
      result := result.(statusCode := Some(response.status));
      if response.status in cfg.validStatusCodes {
        result := result.(status := Valid);
      } else {
        result := result.(status := Invalid, errorMessage := Some(HttpStatusMessage(response.status)));
      }
    } else if response.code == Aborted || response.code == Refused {
      requests := requests + [Get];
      var getResponse := req(Get);
      if getResponse.Response? {
        result := result.(statusCode := Some(getResponse.status));
        if getResponse.status in cfg.validStatusCodes {
          result := result.(status := Valid);
        } else {
          result := result.(status := Invalid, errorMessage := Some(HttpStatusMessage(getResponse.status)));
        }
      } else if getResponse.code == Aborted {
        result := result.(status := Timeout, errorMessage := Some(TimeoutMessage));
      } else {
        result := result.(status := Error, errorMessage := Some(OrUnknown(getResponse.message)));
      }
    } else if response.code == Aborted {
      result := result.(status := Timeout, errorMessage := Some(TimeoutMessage));
    } else {
      result := result.(status := Error, errorMessage := Some(OrUnknown(response.message)));
    }
  }

  // ---------------------------------------------------------------------
  // Batching

  /** The result for the resource at position `k`, whose requests are `reqs(k)`. */
  function ResultAt(cfg: Config, reqs: nat -> Requests, resources: seq<Resource>, k: nat): TsResult
    requires k < |resources|
  {
    CheckLinkSpec(cfg, reqs(k), resources[k]).result
  }

  /** One batch, `resources[lo..hi]`, checked in order. */
  method CheckBatch(cfg: Config, reqs: nat -> Requests, resources: seq<Resource>, lo: nat, hi: nat)
    returns (out: seq<TsResult>)
    requires lo <= hi <= |resources|
    ensures |out| == hi - lo
    ensures forall k :: lo <= k < hi ==> out[k - lo] == ResultAt(cfg, reqs, resources, k)
  {
    out := [];
    var j := lo;
    while j < hi
      invariant lo <= j <= hi && |out| == j - lo
      invariant forall k :: lo <= k < j ==> out[k - lo] == ResultAt(cfg, reqs, resources, k)
    {
      var r, _ := CheckLink(cfg, reqs(j), resources[j]);
      out := out + [r];
      j := j + 1;
    }
  }

  /** `checkAllLinks`: one result per resource, in input order; a batch size below 1 would never finish a non-empty list. */
  method CheckAllLinks(cfg: Config, reqs: nat -> Requests, resources: seq<Resource>) returns (results: seq<TsResult>)
    requires cfg.batchSize >= 1 || |resources| == 0
    ensures |results| == |resources|
    ensures forall k :: 0 <= k < |resources| ==> results[k] == ResultAt(cfg, reqs, resources, k)
  {
    results := [];
    var i := 0;
    while i < |resources|
      invariant 0 <= i && |results| == (if i <= |resources| then i else |resources|)
      invariant forall k :: 0 <= k < |results| ==> results[k] == ResultAt(cfg, reqs, resources, k)
      decreases |resources| - i
    {
      var hi := if i + cfg.batchSize <= |resources| then i + cfg.batchSize else |resources|;
      var batchResults := CheckBatch(cfg, reqs, resources, i, hi);
      results := results + batchResults;
      i := i + cfg.batchSize;
    }
  }

  // ---------------------------------------------------------------------
  // Report counts

  datatype TsReport = TsReport(
    totalLinks: nat, validLinks: nat, invalidLinks: nat,
    invalidByStatus: LinkReport.StatusCounts, invalidByCategory: Groups,
    problemLinks: seq<TsResult>, allLinks: seq<TsResult>)

  predicate IsValid(r: TsResult) { r.status == Valid }
  predicate NotValid(r: TsResult) { r.status != Valid }
  predicate IsInvalid(r: TsResult) { r.status == Invalid }
  predicate IsTimeout(r: TsResult) { r.status == Timeout }
  predicate IsError(r: TsResult) { r.status == Error }

  /** The key a problem link is counted under: its category, or '未分类' when it has none. */
  function CategoryKey(r: TsResult): (k: string)
    ensures r.category.Some? && r.category.value != "" ==> k == r.category.value
    ensures r.category.None? || r.category.value == "" ==> k == LinkReport.Uncategorized
  {
    OrElse(r.category, LinkReport.Uncategorized)
  }

  /** The counts and lists `generateReport` writes to the JSON report. */
  method GenerateReport(results: seq<TsResult>) returns (report: TsReport)
    ensures report.totalLinks == |results| && report.validLinks + report.invalidLinks == report.totalLinks
    ensures report.invalidLinks == Count(results, NotValid)
    ensures var s := report.invalidByStatus; s.invalid + s.timeout + s.error == report.invalidLinks
    ensures var s := report.invalidByStatus; var bad := Filter(results, NotValid);
      s.invalid == Count(bad, IsInvalid) && s.timeout == Count(bad, IsTimeout) && s.error == Count(bad, IsError)
    ensures var g := report.invalidByCategory;
      var keys := Map(Filter(results, NotValid), CategoryKey);
      && DistinctKeys(g) && SumCounts(g) == report.invalidLinks
      && (forall i :: 0 <= i < |g| ==> g[i].1 == multiset(keys)[g[i].0])
      && (forall k :: 0 <= k < |keys| ==> IndexOf(g, keys[k]).Some?)
    ensures report.problemLinks == Filter(results, NotValid)
    ensures report.allLinks == results
  {
    var validLinks := Filter(results, IsValid);
    var invalidLinks := Filter(results, NotValid);
    FilterComplement(results, IsValid, NotValid);
    var byStatus := LinkReport.StatusCounts(Count(invalidLinks, IsInvalid), Count(invalidLinks, IsTimeout),
                                            Count(invalidLinks, IsError));
    CountPartition(invalidLinks, IsInvalid, IsTimeout, IsError, NotValid);
    FilterAll(invalidLinks, NotValid);
    var keys := Map(invalidLinks, CategoryKey);
    var byCategory := CountByKey(keys);
    TallyOfCounts(keys);
    report := TsReport(|results|, |validLinks|, |invalidLinks|, byStatus, byCategory, invalidLinks, results);
  }
}
