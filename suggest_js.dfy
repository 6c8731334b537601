// The alternative-link suggester of scripts/suggestAlternatives.js: the
// choice of search backend, the fixture lookup used in test mode or when a
// key is missing, the query built for each problem link, the alternatives
// report, and the choice of the latest check report.
//
// The Google and Bing calls are oracle outcomes, and `new URL(url).hostname`
// is the oracle `HostOf` (None when the URL does not parse).

module SuggestJs {
  import opened Wrappers
  import opened Text
  import opened Seqs
  import opened LinkConfig
  import opened ReportFiles

  datatype SearchItem = SearchItem(title: string, link: string, snippet: string)

  /** What a search API call gave: a result list, an answer without one, or a thrown error. */
  datatype ApiOutcome<T> = Items(items: seq<T>) | NoItems | Failed

  /** An API helper returns the items it got and `[]` otherwise, catching its own errors. */
  function Answer<T>(o: ApiOutcome<T>): seq<T>
  {
    if o.Items? then o.items else []
  }

  // ---------------------------------------------------------------------
  // Fixture results

  /** The keys of the fixture table of `getPredefinedResults`, in declaration order. */
  const FixtureKeys: seq<string> := ["gpt4", "stable-diffusion", "huggingface"]

  const ClaudeItem: SearchItem := SearchItem("Claude AI by Anthropic", "https://www.anthropic.com/claude",
    "Claude is a next-generation AI assistant from Anthropic designed to be helpful, harmless, and honest.")
  const GeminiItem: SearchItem := SearchItem("Google Gemini", "https://gemini.google.com",
    "Gemini is Google's most capable and flexible AI model, designed to help you with a wide range of tasks.")
  const MidjourneyItem: SearchItem := SearchItem("Midjourney", "https://www.midjourney.com",
    "Midjourney is an independent research lab exploring new mediums of thought and expanding the imaginative powers of the human species.")
  const DallEItem: SearchItem := SearchItem("DALL-E by OpenAI", "https://openai.com/dall-e-3",
    "DALL-E is an AI system that can create realistic images and art from a description in natural language.")
  const PapersWithCodeItem: SearchItem := SearchItem("PapersWithCode", "https://paperswithcode.com/",
    "Machine Learning papers with code, seamlessly tracking progress in AI research.")
  const TensorHubItem: SearchItem := SearchItem("TensorHub", "https://tensorhub.io/",
    "TensorHub is a repository of pre-trained ML models ready for fine-tuning and deployment.")
  const ChatPlaceholder: SearchItem :=
    SearchItem("AI-Chat Demo (替代例子)", "https://chat.example.com", "示例AI聊天服务 - 测试用")
  const ImagePlaceholder: SearchItem :=
    SearchItem("Image Generator (替代例子)", "https://image.example.com", "示例图像生成服务 - 测试用")

  /** The results stored under the key at position `j`. */
  function FixtureResults(j: nat): (r: seq<SearchItem>)
    requires j < |FixtureKeys|
    ensures |r| == 2
  {
    if j == 0 then [ClaudeItem, GeminiItem]
    else if j == 1 then [MidjourneyItem, DallEItem]
    else [PapersWithCodeItem, TensorHubItem]
  }

  /** The generic suggestions returned when no fixture key matches. */
  const Placeholders: seq<SearchItem> := [ChatPlaceholder, ImagePlaceholder]

  /** The query, lower-cased and split on single spaces. */
  function Keywords(query: string): seq<string>
  {
    Split(Lower(query), ' ')
  }

  predicate WordMatches(key: string, word: string)
  {
    Contains(key, word) || Contains(word, key)
  }

  predicate KeyMatches(key: string, words: seq<string>)
  {
    exists w :: w in words && WordMatches(key, w)
  }

  /** The first fixture at or after `i` whose key some word matches; |FixtureKeys| when there is none. */
  function FirstFixture(words: seq<string>, i: nat): (r: nat)
    requires i <= |FixtureKeys|
    ensures i <= r <= |FixtureKeys|
    ensures r < |FixtureKeys| ==> KeyMatches(FixtureKeys[r], words)
    ensures forall j :: i <= j < r ==> !KeyMatches(FixtureKeys[j], words)
    decreases |FixtureKeys| - i
  {
    if i == |FixtureKeys| then i
    else if KeyMatches(FixtureKeys[i], words) then i
    else FirstFixture(words, i + 1)
  }

  /**
   * `getPredefinedResults`: the results of the first key, in table order,
   * that some keyword is part of or contains; the placeholders when no key
   * matches. The result is never empty.
   */
  function GetPredefinedResults(query: string): (r: seq<SearchItem>)
    ensures |r| > 0
    ensures var words := Keywords(query);
      || (exists j :: 0 <= j < |FixtureKeys| && KeyMatches(FixtureKeys[j], words)
                      && (forall i :: 0 <= i < j ==> !KeyMatches(FixtureKeys[i], words))
                      && r == FixtureResults(j))
      || ((forall j :: 0 <= j < |FixtureKeys| ==> !KeyMatches(FixtureKeys[j], words)) && r == Placeholders)
  {
    var j := FirstFixture(Keywords(query), 0);
    if j < |FixtureKeys| then FixtureResults(j) else Placeholders
  }

  /** Every key contains the empty word, so an empty keyword always selects the first fixture. */
  lemma EmptyKeywordSelectsFirst(query: string)
    requires "" in Keywords(query)
    ensures GetPredefinedResults(query) == FixtureResults(0)
  {
    ContainsSelf(FixtureKeys[0]);
    assert WordMatches(FixtureKeys[0], "");
  }

  /** A query with two adjacent spaces has an empty keyword, so it yields the 'gpt4' fixture. */
  lemma DoubleSpaceSelectsFirst(query: string, i: nat)
    requires i + 1 < |query| && query[i] == ' ' && query[i + 1] == ' '
    ensures GetPredefinedResults(query) == FixtureResults(0)
  {
    var l := Lower(query);
    assert l[i] == ' ' && l[i + 1] == ' ';
    SplitAdjacent(l, ' ', i);
    var k :| 1 <= k < |Split(l, ' ')| && Split(l, ' ')[k] == "";
    assert "" in Keywords(query);
    EmptyKeywordSelectsFirst(query);
  }

  // ---------------------------------------------------------------------
  // Search dispatch

  datatype Backend = Fixture | Google | Bing

  /** The answers the two APIs would give to this search. */
  datatype ApiAnswers = ApiAnswers(google: ApiOutcome<SearchItem>, bing: ApiOutcome<SearchItem>)

  /** Which source answers: the fixture in test mode, for an unknown provider, or when a key is missing. */
  function BackendOf(s: Suggestion): (b: Backend)
    ensures b == Google <==> s.useRealSearches && s.searchProvider == "google"
                             && s.googleApiKey != "" && s.googleSearchEngineId != ""
    ensures b == Bing <==> s.useRealSearches && s.searchProvider == "bing" && s.bingApiKey != ""
  {
    if !s.useRealSearches then Fixture
    else if s.searchProvider == "google" then
      (if s.googleApiKey == "" || s.googleSearchEngineId == "" then Fixture else Google)
    else if s.searchProvider == "bing" then
      (if s.bingApiKey == "" then Fixture else Bing)
    else Fixture
  }

  /** `searchUsingAPI` with `searchWithGoogle` and `searchWithBing`. */
  function SearchUsingApi(cfg: Config, answers: ApiAnswers, query: string): (r: seq<SearchItem>)
    ensures BackendOf(cfg.alternativeSuggestion) == Fixture ==> r == GetPredefinedResults(query)
    ensures BackendOf(cfg.alternativeSuggestion) == Google ==> r == Answer(answers.google)
    ensures BackendOf(cfg.alternativeSuggestion) == Bing ==> r == Answer(answers.bing)
  {
    var s := cfg.alternativeSuggestion;
    if !s.useRealSearches then GetPredefinedResults(query)
    else if s.searchProvider == "google" then
      if s.googleApiKey == "" || s.googleSearchEngineId == "" then GetPredefinedResults(query)
      else Answer(answers.google)
    else if s.searchProvider == "bing" then
      if s.bingApiKey == "" then GetPredefinedResults(query)
      else Answer(answers.bing)
    else GetPredefinedResults(query)
  }

  /** Only a real API call can give no suggestions: a failing API yields `[]`, never the fixture. */
  lemma EmptyOnlyFromApi(cfg: Config, answers: ApiAnswers, query: string)
    ensures SearchUsingApi(cfg, answers, query) == [] ==> BackendOf(cfg.alternativeSuggestion) != Fixture
    ensures BackendOf(cfg.alternativeSuggestion) == Google && answers.google.Failed? ==>
      SearchUsingApi(cfg, answers, query) == []
  {
  }

  // ---------------------------------------------------------------------
  // Queries and the alternatives report

  type HostOf = string -> Option<string>

  /** A problem link as read back from the check report. */
  datatype Problem = Problem(title: string, link: string, category: Option<string>)

  /** The middle part of the query, present only for a non-empty host name. */
  function AlternativeClause(domain: Option<string>): string
  {
    if domain.Some? && domain.value != "" then "alternative to " + domain.value else ""
  }

  /** The query of line 418: title, clause and category separated by single spaces, then trimmed. */
  function BuildQuery(title: string, domain: Option<string>, category: Option<string>): (q: string)
    ensures q == [] || (!IsSpace(q[0]) && !IsSpace(q[|q| - 1]))
  {
    Trim(title + " " + AlternativeClause(domain) + " " + OrElse(category, ""))
  }

  /** With a host name the query is the title, `alternative to <host>` and the category, single-spaced. */
  lemma DomainQuery(title: string, host: string, category: string)
    requires title != [] && !IsSpace(title[0])
    requires host != ""
    requires category != [] && !IsSpace(category[|category| - 1])
    ensures BuildQuery(title, Some(host), Some(category)) == title + " alternative to " + host + " " + category
  {
    var s := title + " " + AlternativeClause(Some(host)) + " " + OrElse(Some(category), "");
    assert s == title + " alternative to " + host + " " + category;
    assert s[0] == title[0] && s[|s| - 1] == category[|category| - 1];
    TrimNoSpaces(s);
  }

  /** Without a host name the query is the title and the category around two spaces. */
  lemma NoDomainQuery(title: string, category: string)
    requires title != [] && !IsSpace(title[0])
    requires category != [] && !IsSpace(category[|category| - 1])
    ensures BuildQuery(title, None, Some(category)) == title + "  " + category
  {
    var s := title + " " + AlternativeClause(None) + " " + OrElse(Some(category), "");
    assert s == title + "  " + category;
    TrimNoSpaces(s);
  }

  /**
   * When the host name is missing the two separators meet, so a link with a
   * title and a category is always searched with the 'gpt4' fixture.
   */
  lemma NoDomainSelectsFirst(title: string, category: string)
    requires title != [] && !IsSpace(title[0])
    requires category != [] && !IsSpace(category[|category| - 1])
    ensures GetPredefinedResults(BuildQuery(title, None, Some(category))) == FixtureResults(0)
  {
    NoDomainQuery(title, category);
    var q := title + "  " + category;
    assert q[|title|] == ' ' && q[|title| + 1] == ' ';
    DoubleSpaceSelectsFirst(q, |title|);
  }

  datatype AlternativesEntry = AlternativesEntry(original: Problem, alternatives: seq<SearchItem>)

  datatype AlternativesReport = AlternativesReport(
    totalProblemLinks: nat,
    alternativesFound: nat,
    results: seq<AlternativesEntry>)

  /** The check report: unreadable or unparsable, or parsed with its `problemLinks` (None when absent). */
  datatype StoredReport = Unparsable | Parsed(problemLinks: Option<seq<Problem>>)

  /** A search, or the pause between two searches. */
  datatype Action = Searched(query: string) | Paused

  predicate HasAlternatives(e: AlternativesEntry)
  {
    |e.alternatives| > 0
  }

  function QueryFor(hostOf: HostOf, p: Problem): string
  {
    BuildQuery(p.title, hostOf(p.link), p.category)
  }

  function QueriesFor(hostOf: HostOf, problems: seq<Problem>): (qs: seq<string>)
    ensures |qs| == |problems|
    ensures forall i :: 0 <= i < |problems| ==> qs[i] == QueryFor(hostOf, problems[i])
  {
    Map(problems, (p: Problem) => QueryFor(hostOf, p))
  }

  /** The `k`-th search of a run: what `searchUsingAPI` gives for a query. */
  type Searcher = (nat, string) -> seq<SearchItem>

  /** The searches of a run in which the `k`-th search gets the API answers `answers(k)`. */
  function ApiSearcher(cfg: Config, answers: nat -> ApiAnswers): Searcher
  {
    (k: nat, query: string) => SearchUsingApi(cfg, answers(k), query)
  }

  /** The entry for the `k`-th problem link: the link and what the search for its query gave. */
  function EntryFor(search: Searcher, hostOf: HostOf, k: nat, p: Problem): AlternativesEntry
  {
    AlternativesEntry(p, search(k, QueryFor(hostOf, p)))
  }

  /** The searches in order with a pause between each two, and none before the first or after the last. */
  function PacedTrace(queries: seq<string>): (t: seq<Action>)
    decreases |queries|
  {
    if |queries| <= 1 then (if queries == [] then [] else [Searched(queries[0])])
    else PacedTrace(queries[..|queries| - 1]) + [Paused, Searched(queries[|queries| - 1])]
  }

  /** Even positions are the searches in order, odd positions the pauses between them. */
  lemma {:induction false} PacedTraceShape(queries: seq<string>)
    ensures |queries| > 0 ==> |PacedTrace(queries)| == 2 * |queries| - 1
    ensures |queries| == 0 ==> PacedTrace(queries) == []
    ensures forall k :: 0 <= k < |PacedTrace(queries)| ==>
      PacedTrace(queries)[k] == (if k % 2 == 0 then Searched(queries[k / 2]) else Paused)
    decreases |queries|
  {
    if |queries| > 1 {
      var init := queries[..|queries| - 1];
      PacedTraceShape(init);
      var t := PacedTrace(queries);
      forall k | 0 <= k < |t|
        ensures t[k] == (if k % 2 == 0 then Searched(queries[k / 2]) else Paused)
      {
        if k < |PacedTrace(init)| {
          assert t[k] == PacedTrace(init)[k];
          if k % 2 == 0 {
            assert init[k / 2] == queries[k / 2];
          }
        }
      }
    }
  }

  /** The entries of the report, one per problem link, in order. */
  function Entries(search: Searcher, hostOf: HostOf, problems: seq<Problem>): (r: seq<AlternativesEntry>)
    ensures |r| == |problems|
    ensures forall k :: 0 <= k < |problems| ==> r[k] == EntryFor(search, hostOf, k, problems[k])
  {
    seq(|problems|, (k: int) requires 0 <= k < |problems| => EntryFor(search, hostOf, k, problems[k]))
  }

  /** With the real searches, each entry carries the link and `searchUsingAPI`'s answer to its query. */
  lemma EntriesSearchApi(cfg: Config, answers: nat -> ApiAnswers, hostOf: HostOf, problems: seq<Problem>, k: nat)
    requires k < |problems|
    ensures var e := Entries(ApiSearcher(cfg, answers), hostOf, problems)[k];
      e.original == problems[k]
      && e.alternatives == SearchUsingApi(cfg, answers(k), BuildQuery(problems[k].title, hostOf(problems[k].link), problems[k].category))
  {
  }

  /** The trace after the first `i` of `queries` searches: a pause follows every search but the last. */
  function PacedPrefix(queries: seq<string>, i: nat): seq<Action>
    requires i <= |queries|
  {
    PacedTrace(queries[..i]) + (if 0 < i < |queries| then [Paused] else [])
  }

  /** One more search extends the trace by that search, and by a pause unless it is the last. */
  lemma PacedPrefixStep(queries: seq<string>, i: nat)
    requires i < |queries|
    ensures PacedPrefix(queries, i + 1) ==
      PacedPrefix(queries, i) + [Searched(queries[i])] + (if i < |queries| - 1 then [Paused] else [])
  {
    assert queries[..i + 1][..i] == queries[..i];
    if i == 0 {
      assert queries[..0] == [];
    }
  }

  /** One pass of the loop: the search for link `i`, then a pause unless it is the last. */
  method SearchOne(search: Searcher, hostOf: HostOf, link: Problem, i: nat, last: bool)
    returns (entry: AlternativesEntry, actions: seq<Action>)
    ensures entry == EntryFor(search, hostOf, i, link)
    ensures actions == [Searched(QueryFor(hostOf, link))] + (if last then [] else [Paused])
  {
    var query := QueryFor(hostOf, link);
    var alternatives := search(i, query);
    entry := AlternativesEntry(link, alternatives);
    actions := [Searched(query)];
    if !last {
      actions := actions + [Paused];
    }
  }

  /** A pass of the loop extends the entries and the trace of the first `i` links to the first `i + 1`. */
  lemma SearchAllStep(search: Searcher, hostOf: HostOf, problemLinks: seq<Problem>, i: nat,
                      results: seq<AlternativesEntry>, trace: seq<Action>, entry: AlternativesEntry, actions: seq<Action>)
    requires i < |problemLinks|
    requires results == Entries(search, hostOf, problemLinks)[..i]
    requires trace == PacedPrefix(QueriesFor(hostOf, problemLinks), i)
    requires entry == EntryFor(search, hostOf, i, problemLinks[i])
    requires actions == [Searched(QueryFor(hostOf, problemLinks[i]))] + (if i == |problemLinks| - 1 then [] else [Paused])
    ensures results + [entry] == Entries(search, hostOf, problemLinks)[..i + 1]
    ensures trace + actions == PacedPrefix(QueriesFor(hostOf, problemLinks), i + 1)
  {
    var queries := QueriesFor(hostOf, problemLinks);
    PrefixStep(Entries(search, hostOf, problemLinks), i);
    PacedPrefixStep(queries, i);
  }

  /** The loop of `findAlternativeLinks`: search for each problem link in turn, pausing between searches. */
  method SearchAll(search: Searcher, hostOf: HostOf, problemLinks: seq<Problem>)
    returns (results: seq<AlternativesEntry>, trace: seq<Action>)
    ensures results == Entries(search, hostOf, problemLinks)
    ensures trace == PacedTrace(QueriesFor(hostOf, problemLinks))
  {
    ghost var queries := QueriesFor(hostOf, problemLinks);
    ghost var expected := Entries(search, hostOf, problemLinks);
    results := [];
    trace := [];
    var i := 0;
    while i < |problemLinks|
      invariant 0 <= i <= |problemLinks| && results == expected[..i]
      invariant trace == PacedPrefix(queries, i)
    {
      var entry, actions := SearchOne(search, hostOf, problemLinks[i], i, i == |problemLinks| - 1);
      SearchAllStep(search, hostOf, problemLinks, i, results, trace, entry, actions);
      results := results + [entry];
      trace := trace + actions;
      i := i + 1;
    }
    assert queries[..i] == queries && expected[..i] == expected;
    assert trace == PacedPrefix(queries, |queries|);
  }

  /** `findAlternativeLinks`: one entry per problem link, in order, with a pause between searches. */
  method FindAlternativeLinks(search: Searcher, hostOf: HostOf, latest: Option<string>, stored: StoredReport)
    returns (report: Option<AlternativesReport>, trace: seq<Action>)
    ensures latest.None? || stored.Unparsable? || stored.problemLinks.GetOr([]) == [] ==>
      report.None? && trace == []
    ensures latest.Some? && stored.Parsed? && stored.problemLinks.GetOr([]) != [] ==>
      var problems := stored.problemLinks.value;
      && report.Some?
      && report.value.totalProblemLinks == |problems|
      && report.value.results == Entries(search, hostOf, problems)
      && report.value.alternativesFound == Count(report.value.results, HasAlternatives)
      && report.value.alternativesFound <= report.value.totalProblemLinks
      && trace == PacedTrace(QueriesFor(hostOf, problems))
  {
    if latest.None? || stored.Unparsable? {
      return None, [];
    }
    var problemLinks := stored.problemLinks.GetOr([]);
    if |problemLinks| == 0 {
      return None, [];
    }
    var results;
    results, trace := SearchAll(search, hostOf, problemLinks);
    var found := Count(results, HasAlternatives);
    report := Some(AlternativesReport(|problemLinks|, found, results));
  }

  // ---------------------------------------------------------------------
  // The latest check report

  /** `findLatestReport`: the greatest matching name, or None when the directory is missing, unreadable or has none. */
  function FindLatestReport(present: bool, listing: Option<seq<string>>): (r: Option<string>)
    ensures !present || listing.None? ==> r.None?
    ensures present && listing.Some? ==> r == NewestByName(listing.value, CheckReportPrefix, Json)
  {
    if !present || listing.None? then None
    else NewestByName(listing.value, CheckReportPrefix, Json)
  }
}
