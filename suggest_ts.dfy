// The alternative-link suggester of scripts/suggestAlternatives.ts: the
// choice between the fixture table and a search API, the fixture lookup by
// title (exact key first, then a case-insensitive containment either way),
// the entries and summary of the alternatives report, and the choice of the
// latest check report by modification time.
//
// The API answers are oracles keyed by the query sent, and
// `new URL(url).hostname` is the oracle `HostOf`.

module SuggestTs {
  import opened Wrappers
  import opened Text
  import opened Seqs
  import opened LinkConfig
  import opened ReportFiles
  import SuggestJs

  // ---------------------------------------------------------------------
  // Fixture results

  /** The keys of the table of `searchWithPredefinedResults`, in declaration order. */
  const FixtureTitles: seq<string> := ["GPT-4", "LLaMA 2", "Stable Diffusion", "BERT", "ResNet", "YOLOv8",
    "TensorFlow", "PyTorch", "Scikit-learn", "ImageNet", "COCO Dataset"]

  const Gpt4Links: seq<string> := ["https://openai.com/product/gpt-4", "https://openai.com/api/",
    "https://platform.openai.com/docs/models/gpt-4"]
  const LlamaLinks: seq<string> := ["https://llama.meta.com/", "https://github.com/facebookresearch/llama",
    "https://huggingface.co/meta-llama"]
  const StableDiffusionLinks: seq<string> := ["https://stablediffusionweb.com/", "https://huggingface.co/stabilityai",
    "https://github.com/Stability-AI/stablediffusion"]
  const BertLinks: seq<string> := ["https://github.com/google-research/bert",
    "https://huggingface.co/docs/transformers/model_doc/bert", "https://tensorflow.org/hub/tutorials/bert_experts"]
  const ResNetLinks: seq<string> := ["https://pytorch.org/vision/main/models/generated/torchvision.models.resnet50.html",
    "https://keras.io/api/applications/resnet/", "https://github.com/KaimingHe/deep-residual-networks"]
  const YoloLinks: seq<string> := ["https://github.com/ultralytics/ultralytics", "https://docs.ultralytics.com/",
    "https://huggingface.co/spaces/ultralytics/ultralytics"]
  const TensorFlowLinks: seq<string> := ["https://www.tensorflow.org/", "https://github.com/tensorflow/tensorflow",
    "https://tensorflow.google.cn/"]
  const PyTorchLinks: seq<string> := ["https://pytorch.org/", "https://github.com/pytorch/pytorch",
    "https://pytorch.org/docs/stable/index.html"]
  const ScikitLinks: seq<string> := ["https://scikit-learn.org/stable/", "https://github.com/scikit-learn/scikit-learn",
    "https://scikit-learn.org/stable/user_guide.html"]
  const ImageNetLinks: seq<string> := ["https://www.image-net.org/",
    "https://www.kaggle.com/competitions/imagenet-object-localization-challenge",
    "https://huggingface.co/datasets/imagenet-1k"]
  const CocoLinks: seq<string> := ["https://cocodataset.org/", "https://github.com/cocodataset/cocoapi",
    "https://huggingface.co/datasets/coco"]

  /** The links of each key, in the order of `FixtureTitles`. */
  const FixtureLinks: seq<seq<string>> := [Gpt4Links, LlamaLinks, StableDiffusionLinks, BertLinks, ResNetLinks,
    YoloLinks, TensorFlowLinks, PyTorchLinks, ScikitLinks, ImageNetLinks, CocoLinks]

  /** The fuzzy test: either lower-cased string contains the other. */
  predicate Similar(key: string, title: string)
  {
    Contains(Lower(key), Lower(title)) || Contains(Lower(title), Lower(key))
  }

  /** The first key at or after `i` satisfying `p`; |keys| when there is none. */
  function FirstKey(keys: seq<string>, p: string -> bool, i: nat): (r: nat)
    requires i <= |keys|
    ensures i <= r <= |keys|
    ensures r < |keys| ==> p(keys[r])
    ensures forall j :: i <= j < r ==> !p(keys[j])
    decreases |keys| - i
  {
    if i == |keys| then i
    else if p(keys[i]) then i
    else FirstKey(keys, p, i + 1)
  }

  function IsTitle(title: string): string -> bool
  {
    (key: string) => key == title
  }

  function SimilarTo(title: string): string -> bool
  {
    (key: string) => Similar(key, title)
  }

  /**
   * The lookup of `searchWithPredefinedResults` in a table of `keys` and
   * their `values`: the value of the first key equal to the title; failing
   * that, of the first key similar to it; failing that, none.
   */
  function Lookup(keys: seq<string>, values: seq<seq<string>>, title: string): (r: seq<string>)
    requires |keys| == |values|
    ensures title in keys ==>
      exists j :: 0 <= j < |keys| && keys[j] == title && (forall i :: 0 <= i < j ==> keys[i] != title) && r == values[j]
    ensures title !in keys ==>
      || (exists j :: 0 <= j < |keys| && Similar(keys[j], title)
                      && (forall i :: 0 <= i < j ==> !Similar(keys[i], title))
                      && r == values[j])
      || ((forall j :: 0 <= j < |keys| ==> !Similar(keys[j], title)) && r == [])
  {
    var exact := FirstKey(keys, IsTitle(title), 0);
    if exact < |keys| then values[exact]
    else
      var similar := FirstKey(keys, SimilarTo(title), 0);
      if similar < |keys| then values[similar] else []
  }

  /** With non-empty values, the lookup gives nothing exactly when no key is similar to the title. */
  lemma LookupEmptyIff(keys: seq<string>, values: seq<seq<string>>, title: string)
    requires |keys| == |values| && forall j :: 0 <= j < |values| ==> values[j] != []
    ensures Lookup(keys, values, title) == [] <==> forall j :: 0 <= j < |keys| ==> !Similar(keys[j], title)
  {
    if title in keys {
      var j :| 0 <= j < |keys| && keys[j] == title;
      ContainsSelf(Lower(title));
      assert Similar(keys[j], title);
    }
  }

  /** `searchWithPredefinedResults` over the table of the script. */
  function SearchWithPredefinedResults(title: string): (r: seq<string>)
    ensures r == [] || r in FixtureLinks
  {
    Lookup(FixtureTitles, FixtureLinks, title)
  }

  /** Every key contains the empty string, so an empty title gets the 'GPT-4' links. */
  lemma EmptyTitleMatchesGpt4()
    ensures SearchWithPredefinedResults("") == Gpt4Links
  {
    var keys := FixtureTitles;
    assert "" !in keys;
    ContainsSelf(Lower(keys[0]));
    assert Lower("") == "";
    assert Similar(keys[0], "");
  }

  // ---------------------------------------------------------------------
  // Search dispatch

  /** What the two APIs answer to a query: a link list, an answer without one, or a failure. */
  datatype ApiAnswers = ApiAnswers(google: SuggestJs.ApiOutcome<string>, bing: SuggestJs.ApiOutcome<string>)

  /** The query sent to an API: title, category (or nothing) and "official site". */
  function SearchQuery(title: string, category: Option<string>): (q: string)
    ensures StartsWith(q, title + " ") && EndsWith(q, " official site")
    ensures |q| == |title| + |OrElse(category, "")| + 15 && q[|title| + 1..|q| - 14] == OrElse(category, "")
    ensures category.None? ==> q == title + "  official site"
  {
    title + " " + OrElse(category, "") + " official site"
  }

  /** `searchWithGoogleAPI`: at most the first three links; `[]` on any failure. */
  function GoogleLinks(o: SuggestJs.ApiOutcome<string>): (r: seq<string>)
    ensures |r| <= 3
    ensures o.Items? ==> r == o.items[..if |o.items| < 3 then |o.items| else 3]
    ensures !o.Items? ==> r == []
  {
    var all := SuggestJs.Answer(o);
    all[..if |all| < 3 then |all| else 3]
  }

  /**
   * `searchUsingAPI`: the fixture by title when real searches are off or the
   * API type is unknown; otherwise the chosen API's answer to the query.
   * Each API helper catches its own errors, so its failure yields `[]`.
   */
  function SearchUsingApi(s: Search, answers: string -> ApiAnswers, title: string, category: Option<string>): (r: seq<string>)
    ensures !s.useRealSearch || (s.searchApiType != "custom-google" && s.searchApiType != "bing") ==>
      r == SearchWithPredefinedResults(title)
    ensures s.useRealSearch && s.searchApiType == "custom-google" ==>
      r == GoogleLinks(answers(SearchQuery(title, category)).google)
    ensures s.useRealSearch && s.searchApiType == "bing" ==>
      r == SuggestJs.Answer(answers(SearchQuery(title, category)).bing)
  {
    if !s.useRealSearch then SearchWithPredefinedResults(title)
    else
      var query := SearchQuery(title, category);
      if s.searchApiType == "custom-google" then GoogleLinks(answers(query).google)
      else if s.searchApiType == "bing" then SuggestJs.Answer(answers(query).bing)
      else SearchWithPredefinedResults(title)
  }

  /** A failing API gives no links and never falls back to the fixture. */
  lemma ApiFailureGivesNothing(s: Search, answers: string -> ApiAnswers, title: string, category: Option<string>)
    requires s.useRealSearch && s.searchApiType == "custom-google"
    requires answers(SearchQuery(title, category)).google.Failed?
    ensures SearchUsingApi(s, answers, title, category) == []
  {
  }

  // ---------------------------------------------------------------------
  // The alternatives report

  /** A problem link as read back from the check report. */
  datatype ProblemLink = ProblemLink(
    id: string,
    title: string,
    link: string,
    category: Option<string>,
    status: string,
    statusCode: Option<nat>,
    errorMessage: Option<string>)

  /** `{...link, domain, alternativeSuggestions, hasAlternatives}` */
  datatype LinkWithAlternatives = LinkWithAlternatives(
    original: ProblemLink,
    domain: Option<string>,
    alternativeSuggestions: seq<string>,
    hasAlternatives: bool)

  datatype Summary = Summary(totalWithAlternatives: nat, totalWithoutAlternatives: nat)

  datatype AlternativesReport = AlternativesReport(
    totalProblemLinks: nat,
    linksWithAlternatives: seq<LinkWithAlternatives>,
    summary: Summary)

  type HostOf = string -> Option<string>

  /** The check report: missing, unreadable or unparsable, or parsed with its `problemLinks` (None when absent). */
  datatype StoredReport = Unparsable | Parsed(problemLinks: Option<seq<ProblemLink>>)

  function WithAlternatives(s: Search, answers: string -> ApiAnswers, hostOf: HostOf, p: ProblemLink): LinkWithAlternatives
  {
    var alternatives := SearchUsingApi(s, answers, p.title, p.category);
    LinkWithAlternatives(p, hostOf(p.link), alternatives, |alternatives| > 0)
  }

  /** The mapped problem links: one entry per link, in order, keeping the link and adding its suggestions. */
  function LinksWithAlternatives(s: Search, answers: string -> ApiAnswers, hostOf: HostOf, problems: seq<ProblemLink>)
    : (r: seq<LinkWithAlternatives>)
    ensures |r| == |problems|
    ensures forall k :: 0 <= k < |problems| ==>
      && r[k].original == problems[k]
      && r[k].domain == hostOf(problems[k].link)
      && r[k].alternativeSuggestions == SearchUsingApi(s, answers, problems[k].title, problems[k].category)
      && (r[k].hasAlternatives <==> r[k].alternativeSuggestions != [])
  {
    seq(|problems|, (k: int) requires 0 <= k < |problems| => WithAlternatives(s, answers, hostOf, problems[k]))
  }

  predicate Has(e: LinkWithAlternatives) { e.hasAlternatives }
  predicate HasNot(e: LinkWithAlternatives) { !e.hasAlternatives }

  /**
   * `findAlternativeLinks`: no report when the stored report does not parse
   * or has no problem links; otherwise the entries and a summary that splits
   * them into those with and those without suggestions.
   */
  function FindAlternativeLinks(s: Search, answers: string -> ApiAnswers, hostOf: HostOf, stored: StoredReport)
    : (r: Option<AlternativesReport>)
    ensures r.None? <==> stored.Unparsable? || stored.problemLinks.GetOr([]) == []
    ensures r.Some? ==>
      var problems := stored.problemLinks.value;
      && r.value.totalProblemLinks == |problems|
      && r.value.linksWithAlternatives == LinksWithAlternatives(s, answers, hostOf, problems)
      && r.value.summary.totalWithAlternatives == Count(r.value.linksWithAlternatives, Has)
      && r.value.summary.totalWithAlternatives + r.value.summary.totalWithoutAlternatives == r.value.totalProblemLinks
  {
    if stored.Unparsable? || stored.problemLinks.GetOr([]) == [] then None
    else
      var problems := stored.problemLinks.value;
      var entries := LinksWithAlternatives(s, answers, hostOf, problems);
      FilterComplement(entries, Has, HasNot);
      Some(AlternativesReport(|problems|, entries, Summary(Count(entries, Has), Count(entries, HasNot))))
  }

  // ---------------------------------------------------------------------
  // The latest check report

  /** A listed file and its modification time in ms; None when `statSync` throws. */
  datatype Listed = Listed(name: string, mtime: Option<int>)

  /**
   * What `findLatestReport` does: null for a missing directory or no report, a
   * name, or an uncaught `readdirSync` or `statSync` error.
   */
  datatype Latest = NoDirectory | NoReport | Newest(name: string) | ReadFailed | StatFailed

  /** The reports directory as `existsSync` and `readdirSync` see it. */
  datatype ReportsDir = Missing | Unreadable | Listing(files: seq<Listed>)

  predicate IsCheckReport(f: Listed)
  {
    Named(CheckReportPrefix, Json, f.name)
  }

  predicate Stated(f: Listed)
  {
    f.mtime.Some?
  }

  /** The first file with the greatest modification time, as a stable descending sort puts it first. */
  function FirstNewest(files: seq<Listed>): (k: nat)
    requires files != [] && forall f :: f in files ==> f.mtime.Some?
    ensures k < |files|
    ensures forall j :: 0 <= j < |files| ==> files[j].mtime.value <= files[k].mtime.value
    ensures forall j :: 0 <= j < k ==> files[j].mtime.value < files[k].mtime.value
    decreases |files|
  {
    if |files| == 1 then 0
    else
      var k := FirstNewest(files[1..]);
      if files[0].mtime.value >= files[k + 1].mtime.value then 0 else k + 1
  }

  /**
   * The choice among the matching reports: an uncaught error when some
   * `statSync` throws, none when there is no report, otherwise the first
   * report with the greatest modification time.
   */
  function NewestReport(reports: seq<Listed>): (r: Latest)
    ensures r != NoDirectory && r != ReadFailed
    ensures r == StatFailed <==> exists k :: 0 <= k < |reports| && reports[k].mtime.None?
    ensures r == NoReport <==> reports == []
    ensures r.Newest? ==>
      exists k :: (0 <= k < |reports| && reports[k].name == r.name
        && (forall j :: 0 <= j < |reports| ==> reports[j].mtime.value <= reports[k].mtime.value)
        && (forall j :: 0 <= j < k ==> reports[j].mtime.value < reports[k].mtime.value))
  {
    if exists k :: 0 <= k < |reports| && reports[k].mtime.None? then StatFailed
    else if reports == [] then NoReport
    else Newest(reports[FirstNewest(reports)].name)
  }

  /**
   * `findLatestReport`: null when the directory is missing, an uncaught error
   * when it exists but cannot be listed, otherwise the choice among the check
   * reports. Files that are not check reports play no part.
   */
  function FindLatestReport(dir: ReportsDir): (r: Latest)
    ensures dir.Missing? <==> r == NoDirectory
    ensures dir.Unreadable? <==> r == ReadFailed
    ensures dir.Listing? ==> r == NewestReport(Filter(dir.files, IsCheckReport))
  {
    match dir
    case Missing => NoDirectory
    case Unreadable => ReadFailed
    case Listing(files) => NewestReport(Filter(files, IsCheckReport))
  }

  /** A directory without any `link-check-report-*.json` file has no latest report. */
  lemma NoCheckReportNoReport(files: seq<Listed>)
    requires forall k :: 0 <= k < |files| ==> !IsCheckReport(files[k])
    ensures FindLatestReport(Listing(files)) == NoReport
  {
    FilterNone(files, IsCheckReport);
  }
}
