// The scheduled run of scripts/scheduledLinkCheck.js: it runs the checker,
// picks the newest check report, runs the suggester when there are problem
// links, decides which e-mail to send, and sweeps old log files.
//
// The child processes, the directory listings and the report reading are
// inputs: an outcome per step. The mail transport is not an input: `Sent`
// records an attempted send, whose failure the source catches and only logs.
// `log` is not modelled.

module Scheduler {
  import opened Wrappers
  import opened Text
  import opened Seqs
  import opened LinkConfig
  import opened ReportFiles
  import Retention

  // ---------------------------------------------------------------------
  // The e-mail about problem links

  /** The fields of a problem link the e-mail shows. */
  datatype ProblemLink = ProblemLink(title: string, link: string, status: string)

  const PreviewLimit: nat := 10

  function Preview(n: nat): nat
  {
    if n < PreviewLimit then n else PreviewLimit
  }

  function Header(checkedAt: string, n: nat): (h: seq<string>)
    ensures |h| == 5
  {
    ["<h1>AI导航网站链接检查报告</h1>", "<p>检查时间: " + checkedAt + "</p>",
     "<p>发现 " + NatToString(n) + " 个问题链接</p>", "<h2>问题链接摘要:</h2>", "<ul>"]
  }

  function Item(l: ProblemLink): string
  {
    "<li><strong>" + l.title + "</strong>: " + l.link + " - " + l.status + "</li>"
  }

  function MoreLine(rest: nat): string
  {
    "<li>... 以及其他 " + NatToString(rest) + " 个问题链接</li>"
  }

  /** The line about the links beyond the preview, present only when there are some. */
  function More(n: nat): (m: seq<string>)
    ensures |m| == (if n > PreviewLimit then 1 else 0)
  {
    if n > PreviewLimit then [MoreLine(n - PreviewLimit)] else []
  }

  const Footer: seq<string> := ["</ul>", "<p>详情请查看附件报告或系统中的完整报告。</p>"]

  /** The lines of the problem e-mail, in order. */
  function EmailLines(checkedAt: string, links: seq<ProblemLink>): seq<string>
  {
    Header(checkedAt, |links|) + Map(links[..Preview(|links|)], Item) + More(|links|) + Footer
  }

  /**
   * The e-mail lists the first ten problem links in order, then the line
   * about the remaining ones exactly when there are more than ten, then
   * closes the list.
   */
  lemma EmailLinesShape(checkedAt: string, links: seq<ProblemLink>)
    ensures var lines := EmailLines(checkedAt, links);
      var p := Preview(|links|);
      && |lines| == 7 + p + (if |links| > PreviewLimit then 1 else 0)
      && (forall k :: 0 <= k < p ==> lines[5 + k] == Item(links[k]))
      && (|links| > PreviewLimit ==> lines[5 + p] == MoreLine(|links| - PreviewLimit))
      && (|links| <= PreviewLimit ==> lines[5 + p] == "</ul>")
  {
  }

  predicate IsListItem(line: string)
  {
    StartsWith(line, "<li>")
  }

  lemma HeaderHasNoItem(checkedAt: string, n: nat)
    ensures Count(Header(checkedAt, n), IsListItem) == 0
  {
    var h := Header(checkedAt, n);
    assert h[0][1] == 'h' && h[1][1] == 'p' && h[2][1] == 'p' && h[3][1] == 'h' && h[4][1] == 'u';
    FilterNone(h, IsListItem);
  }

  lemma ItemsAreItems(links: seq<ProblemLink>)
    ensures Count(Map(links, Item), IsListItem) == |links|
  {
    var items := Map(links, Item);
    forall k | 0 <= k < |items|
      ensures IsListItem(items[k])
    {
      assert items[k][..4] == "<li>";
    }
    FilterAll(items, IsListItem);
  }

  lemma MoreIsItem(n: nat)
    ensures Count(More(n), IsListItem) == |More(n)|
  {
    if n > PreviewLimit {
      assert MoreLine(n - PreviewLimit)[..4] == "<li>";
    }
  }

  lemma FooterHasNoItem()
    ensures Count(Footer, IsListItem) == 0
  {
    assert Footer[0][1] == '/' && Footer[1][1] == 'p';
    FilterNone(Footer, IsListItem);
  }

  /** The list holds one item per previewed link, and one more exactly when links were left out. */
  lemma EmailListItems(checkedAt: string, links: seq<ProblemLink>)
    ensures Count(EmailLines(checkedAt, links), IsListItem) ==
      Preview(|links|) + (if |links| > PreviewLimit then 1 else 0)
  {
    var h := Header(checkedAt, |links|);
    var items := Map(links[..Preview(|links|)], Item);
    var m := More(|links|);
    FilterAppend(h + items + m, Footer, IsListItem);
    FilterAppend(h + items, m, IsListItem);
    FilterAppend(h, items, IsListItem);
    HeaderHasNoItem(checkedAt, |links|);
    ItemsAreItems(links[..Preview(|links|)]);
    MoreIsItem(|links|);
    FooterHasNoItem();
  }

  /** `prepareEmailContent`: the lines pushed one by one, joined with newlines. */
  method PrepareEmailContent(checkedAt: string, problemLinks: seq<ProblemLink>) returns (text: string)
    ensures text == Join(EmailLines(checkedAt, problemLinks), "\n")
  {
    var content := Header(checkedAt, |problemLinks|);
    var previewLinks := problemLinks[..Preview(|problemLinks|)];
    var k := 0;
    while k < |previewLinks|
      invariant 0 <= k <= |previewLinks|
      invariant content == Header(checkedAt, |problemLinks|) + Map(previewLinks[..k], Item)
    {
      PrefixStep(previewLinks, k);
      MapAppend(previewLinks[..k], [previewLinks[k]], Item);
      content := content + [Item(previewLinks[k])];
      k := k + 1;
    }
    assert previewLinks[..k] == previewLinks;
    ghost var listed := content;
    if |problemLinks| > 10 {
      content := content + [MoreLine(|problemLinks| - 10)];
    }
    assert content == listed + More(|problemLinks|);
    content := content + ["</ul>"];
    content := content + ["<p>详情请查看附件报告或系统中的完整报告。</p>"];
    assert content == listed + More(|problemLinks|) + Footer;
    text := Join(content, "\n");
  }

  // ---------------------------------------------------------------------
  // The two child runs

  /** What the checker's report holds that the scheduler reads. */
  datatype ParsedReport = ParsedReport(totalLinks: nat, problemLinks: Option<seq<ProblemLink>>)

  /** How a child run ended: rejected (a thrown error), resolved with `success: false`, or resolved with data. */
  datatype CheckOutcome =
    | CheckRejected
    | CheckNoReport
    | Checked(reportName: string, readableName: Option<string>, totalLinks: nat, problemLinks: seq<ProblemLink>)

  datatype SuggestOutcome =
    | SuggestRejected
    | SuggestNoReport
    | Suggested(alternativesName: string, readableName: Option<string>)

  /**
   * `checkLinks`: a failed child run, an unreadable directory or an
   * unparsable report reject; no check report resolves with `success: false`.
   * `listing` is None when `readdirSync` throws and `read` gives None when
   * reading or parsing the chosen report throws.
   */
  function CheckLinks(execOk: bool, listing: Option<seq<string>>, read: string -> Option<ParsedReport>)
    : (r: CheckOutcome)
    ensures !execOk || listing.None? ==> r == CheckRejected
    ensures execOk && listing.Some? ==>
      var newest := NewestByName(listing.value, CheckReportPrefix, Json);
      && (newest.None? ==> r == CheckNoReport)
      && (newest.Some? && read(newest.value).None? ==> r == CheckRejected)
      && (newest.Some? && read(newest.value).Some? ==>
            r == Checked(newest.value, NewestByName(listing.value, CheckReadablePrefix, Markdown),
                         read(newest.value).value.totalLinks, read(newest.value).value.problemLinks.GetOr([])))
  {
    if !execOk || listing.None? then CheckRejected
    else
      match NewestByName(listing.value, CheckReportPrefix, Json)
      case None => CheckNoReport
      case Some(name) =>
        match read(name)
        case None => CheckRejected
        case Some(report) =>
          Checked(name, NewestByName(listing.value, CheckReadablePrefix, Markdown),
                  report.totalLinks, report.problemLinks.GetOr([]))
  }

  /** `suggestAlternatives`: a failed child run or an unreadable directory reject; no alternatives report gives `success: false`. */
  function SuggestAlternatives(execOk: bool, listing: Option<seq<string>>): (r: SuggestOutcome)
    ensures !execOk || listing.None? ==> r == SuggestRejected
    ensures execOk && listing.Some? ==>
      var newest := NewestByName(listing.value, AlternativesPrefix, Json);
      && (newest.None? ==> r == SuggestNoReport)
      && (newest.Some? ==>
            r == Suggested(newest.value, NewestByName(listing.value, AlternativesReadablePrefix, Markdown)))
  {
    if !execOk || listing.None? then SuggestRejected
    else
      match NewestByName(listing.value, AlternativesPrefix, Json)
      case None => SuggestNoReport
      case Some(name) => Suggested(name, NewestByName(listing.value, AlternativesReadablePrefix, Markdown))
  }

  /** A resolved check names the newest check report of the listing. */
  lemma CheckedIsNewest(execOk: bool, listing: Option<seq<string>>, read: string -> Option<ParsedReport>)
    requires CheckLinks(execOk, listing, read).Checked?
    ensures var r := CheckLinks(execOk, listing, read);
      && listing.Some? && r.reportName in listing.value && Named(CheckReportPrefix, Json, r.reportName)
      && (forall n :: n in listing.value && Named(CheckReportPrefix, Json, n) ==> LexLe(n, r.reportName))
  {
    NewestByNameSpec(listing.value, CheckReportPrefix, Json);
  }

  /** `success: false` comes exactly from a listing without a check report. */
  lemma NoReportIff(execOk: bool, listing: Option<seq<string>>, read: string -> Option<ParsedReport>)
    ensures CheckLinks(execOk, listing, read) == CheckNoReport <==>
      execOk && listing.Some? && forall n :: n in listing.value ==> !Named(CheckReportPrefix, Json, n)
  {
    if listing.Some? {
      NewestByNameSpec(listing.value, CheckReportPrefix, Json);
    }
  }

  // ---------------------------------------------------------------------
  // The decisions of `main`

  datatype Mail = ProblemsMail(count: nat) | AllClearMail(totalLinks: nat) | ErrorMail

  /**
   * What a run does, in order. `Sent` is an attempted send: a transport or
   * `sendMail` failure is caught and only logged. `Skipped` is
   * `sendEmailNotification` with e-mail disabled: it only logs.
   */
  datatype Effect = RanSuggester | Sent(mail: Mail) | Skipped(mail: Mail) | CleanedLogs

  /** `sendEmailNotification`; its own errors are caught, so it never throws. */
  function Notify(email: EmailNotifications, m: Mail): (e: Effect)
    ensures e.Sent? <==> email.enabled
    ensures (e.Sent? || e.Skipped?) && e.mail == m
  {
    if email.enabled then Sent(m) else Skipped(m)
  }

  /** The catch block of `main`. */
  function OnError(email: EmailNotifications): seq<Effect>
  {
    if email.sendOnErrors then [Notify(email, ErrorMail)] else []
  }

  /** `main`, given how the checker run and, when it runs, the suggester run end. */
  function ScheduledRun(email: EmailNotifications, check: CheckOutcome, suggest: SuggestOutcome): seq<Effect>
  {
    match check
    case CheckRejected => OnError(email)
    case CheckNoReport => []
    case Checked(_, _, totalLinks, problemLinks) =>
      if |problemLinks| > 0 then
        match suggest
        case SuggestRejected => [RanSuggester] + OnError(email)
        case SuggestNoReport => [RanSuggester, CleanedLogs]
        case Suggested(_, _) =>
          [RanSuggester]
          + (if email.sendOnProblems then [Notify(email, ProblemsMail(|problemLinks|))] else [])
          + [CleanedLogs]
      else
        (if email.sendOnSuccess then [Notify(email, AllClearMail(totalLinks))] else []) + [CleanedLogs]
  }

  predicate Mailed(e: Effect, m: Mail)
  {
    (e.Sent? || e.Skipped?) && e.mail == m
  }

  /** A check that resolves with `success: false` ends the run with no e-mail and no log sweep. */
  lemma NoReportDoesNothing(email: EmailNotifications, suggest: SuggestOutcome)
    ensures ScheduledRun(email, CheckNoReport, suggest) == []
  {
  }

  /** Old logs are swept exactly on the paths where nothing rejected and the check found a report. */
  lemma CleanupIff(email: EmailNotifications, check: CheckOutcome, suggest: SuggestOutcome)
    ensures CleanedLogs in ScheduledRun(email, check, suggest) <==>
      check.Checked? && (|check.problemLinks| == 0 || !suggest.SuggestRejected?)
  {
  }

  /** The suggester runs exactly when the check found problem links. */
  lemma SuggesterIff(email: EmailNotifications, check: CheckOutcome, suggest: SuggestOutcome)
    ensures RanSuggester in ScheduledRun(email, check, suggest) <==> check.Checked? && |check.problemLinks| > 0
  {
  }

  /** The problem e-mail goes out exactly when there are problem links, the suggester succeeded and `sendOnProblems` is set. */
  lemma ProblemsMailIff(email: EmailNotifications, check: CheckOutcome, suggest: SuggestOutcome)
    ensures (exists e :: e in ScheduledRun(email, check, suggest) && IsMail(e) && e.mail.ProblemsMail?)
            <==> check.Checked? && |check.problemLinks| > 0 && suggest.Suggested? && email.sendOnProblems
  {
    var effects := ScheduledRun(email, check, suggest);
    if check.Checked? && |check.problemLinks| > 0 && suggest.Suggested? && email.sendOnProblems {
      assert IsMail(effects[1]) && effects[1].mail.ProblemsMail?;
    }
  }

  /** The all-clear e-mail goes out exactly when the check found no problem link and `sendOnSuccess` is set. */
  lemma AllClearMailIff(email: EmailNotifications, check: CheckOutcome, suggest: SuggestOutcome)
    ensures (exists e :: e in ScheduledRun(email, check, suggest) && IsMail(e) && e.mail.AllClearMail?)
            <==> check.Checked? && |check.problemLinks| == 0 && email.sendOnSuccess
  {
    var effects := ScheduledRun(email, check, suggest);
    if check.Checked? && |check.problemLinks| == 0 && email.sendOnSuccess {
      assert IsMail(effects[0]) && effects[0].mail.AllClearMail?;
    }
  }

  /** The error e-mail goes out exactly when a child run rejected and `sendOnErrors` is set; no log sweep follows it. */
  lemma ErrorMailIff(email: EmailNotifications, check: CheckOutcome, suggest: SuggestOutcome)
    ensures var rejected := check.CheckRejected? || (check.Checked? && |check.problemLinks| > 0 && suggest.SuggestRejected?);
      && ((exists e :: e in ScheduledRun(email, check, suggest) && Mailed(e, ErrorMail)) <==> rejected && email.sendOnErrors)
      && (rejected ==> CleanedLogs !in ScheduledRun(email, check, suggest))
  {
    var effects := ScheduledRun(email, check, suggest);
    if check.CheckRejected? && email.sendOnErrors {
      assert Mailed(effects[0], ErrorMail);
    } else if check.Checked? && |check.problemLinks| > 0 && suggest.SuggestRejected? && email.sendOnErrors {
      assert Mailed(effects[1], ErrorMail);
    }
  }

  /** With e-mail disabled nothing is sent; every notification only logs. */
  lemma DisabledSendsNothing(email: EmailNotifications, check: CheckOutcome, suggest: SuggestOutcome)
    requires !email.enabled
    ensures forall e :: e in ScheduledRun(email, check, suggest) ==> !e.Sent?
  {
  }

  /** A run sends at most one e-mail. */
  lemma AtMostOneMail(email: EmailNotifications, check: CheckOutcome, suggest: SuggestOutcome)
    ensures Count(ScheduledRun(email, check, suggest), IsMail) <= 1
  {
  }

  predicate IsMail(e: Effect)
  {
    e.Sent? || e.Skipped?
  }

  // ---------------------------------------------------------------------
  // Log retention

  /** `cleanupOldLogs`: the retention sweep of the log directory with `logRetentionDays`. */
  method CleanupOldLogs(cfg: Config, logs: Retention.Dir, now: int) returns (remaining: seq<Retention.DirEntry>, cleaned: Option<nat>)
    ensures !logs.readable ==> remaining == logs.entries && cleaned.None?
    ensures logs.readable ==>
      var sw := Retention.SweepFrom(logs.entries, now, cfg.logRetentionDays * MillisPerDay);
      && remaining == sw.kept
      && (cleaned.Some? <==> !sw.failed)
      && (cleaned.Some? ==> cleaned.value == |sw.removed|)
  {
    remaining, cleaned := Retention.CleanupOldFiles(logs, now, cfg.logRetentionDays);
  }
}
