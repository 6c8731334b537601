// The configuration record read by the link checker, the suggester and the
// scheduler, with the values shipped in scripts/config.js as `Default`.
// An absent optional setting is written as false, "" or 0, which is how the
// `x || default` idioms of the scripts read it.

module LinkConfig {
  import opened Wrappers

  /** One entry of `specialSites`; `domainPattern` is the regular expression's source text. */
  datatype SpecialSite = SpecialSite(
    name: string,
    domainPattern: Option<string>,
    treatAllStatusCodesAsValid: bool,
    detectionMethod: string,
    ignoreEmptyVisualContent: bool,
    minDomContentLength: nat)

  datatype HeadlessBrowser = HeadlessBrowser(
    enabled: bool,
    detectionMethod: string,
    treatErrorsAsValid: bool,
    retries: int,
    waitUntil: nat)

  datatype TestMode = TestMode(enabled: bool, limitCount: int)

  /** `alternativeSuggestion`, read by suggestAlternatives.js. */
  datatype Suggestion = Suggestion(
    useRealSearches: bool,
    searchProvider: string,
    googleApiKey: string,
    googleSearchEngineId: string,
    bingApiKey: string)

  /** `alternativeSearch`, read by suggestAlternatives.ts. */
  datatype Search = Search(useRealSearch: bool, searchApiType: string)

  datatype EmailNotifications = EmailNotifications(
    enabled: bool,
    sendOnProblems: bool,
    sendOnSuccess: bool,
    sendOnErrors: bool)

  datatype Config = Config(
    testMode: TestMode,
    batchSize: int,
    validStatusCodes: seq<nat>,
    maxRetries: int,
    layeredChecking: bool,
    headlessBrowser: HeadlessBrowser,
    specialSites: seq<SpecialSite>,
    alternativeSearch: Search,
    alternativeSuggestion: Suggestion,
    reportRetentionDays: int,
    logRetentionDays: int,
    email: EmailNotifications)

  const MillisPerDay: int := 24 * 60 * 60 * 1000

  const YouTube: SpecialSite :=
    SpecialSite("youtube", Some("youtube\\.com"), true, "dom", true, 20)

  const Reddit: SpecialSite :=
    SpecialSite("reddit", Some("reddit\\.com"), true, "dom", false, 0)

  const Default: Config := Config(
    TestMode(false, 10),
    5,
    [200, 201, 202, 203, 204, 205, 206, 207, 208, 226,
     300, 301, 302, 303, 304, 307, 308,
     403],
    2,
    true,
    HeadlessBrowser(true, "dom", false, 1, 3000),
    [YouTube, Reddit],
    Search(false, "custom-google"),
    Suggestion(false, "google", "YOUR_GOOGLE_API_KEY_HERE",
               "YOUR_GOOGLE_SEARCH_ENGINE_ID_HERE", "YOUR_BING_API_KEY_HERE"),
    30,
    30,
    EmailNotifications(false, true, false, true))
}
