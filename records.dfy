/** The dictionaries that pass between the server, the PR processor, the
    sandbox runner and the GPT analyzer. A Python dict whose keys may be
    missing becomes a datatype whose fields are `Option`s: `Some` when the key
    is present. */
module Records {
  import opened Text

  /** One entry of a `generatedTests` list. */
  datatype GeneratedTest = GeneratedTest(test: Option<string>, reason: Option<string>, code: Option<string>)

  /** The dictionary that the sandbox runner returns for a PR's test run.
      `otherKeys` records whether the dictionary holds keys beyond these. */
  datatype TestResults = TestResults(
    status: Option<string>,
    exitCode: Option<int>,
    output: Option<string>,
    generatedTests: Option<seq<GeneratedTest>>,
    otherKeys: bool)
  {
    /** Python truthiness of the dictionary: it is falsy only when empty. */
    predicate NonEmpty() {
      status.Some? || exitCode.Some? || output.Some? || generatedTests.Some? || otherKeys
    }
  }

  /** `if test_results:` on an optional dictionary. */
  predicate Present(tr: Option<TestResults>) {
    tr.Some? && tr.value.NonEmpty()
  }

  /** One Coderabbit review item of a report entry. */
  datatype Review = Review(name: Option<string>, kind: Option<string>, risk: Option<int>, description: Option<string>)

  /** One value of the `reviewUpdates` dictionary of a GPT analysis: the keys
      it holds overwrite those of the review (`dict.update`). */
  datatype ReviewPatch = ReviewPatch(name: Option<string>, kind: Option<string>, risk: Option<int>, description: Option<string>)

  datatype RiskCategories = RiskCategories(
    security: int, performance: int, maintainability: int, reliability: int, compatibility: int)

  datatype SpecificRisk = SpecificRisk(
    category: string, severity: string, description: string, impact: string, recommendation: string)

  /** The dictionary that `analyze_pr` returns. */
  datatype Analysis = Analysis(
    risk: Option<int>,
    confidence: Option<int>,
    reasoning: Option<string>,
    riskCategories: Option<RiskCategories>,
    specificRisks: Option<seq<SpecificRisk>>,
    reviewUpdates: Option<map<string, ReviewPatch>>)

  /** What `get_pr_info` returns, as far as the prompt uses it. */
  datatype PrInfo = PrInfo(title: Option<string>, body: Option<string>)

  /** A changed file of a PR: its path and its content. A Python dict keeps
      insertion order, so the files are a sequence of pairs. */
  type CodeFiles = seq<(string, string)>

  /** One entry of the report's `pullRequests` list. `process_pr` produces
      the first version; the server adds or overwrites keys. */
  datatype PrResult = PrResult(
    id: Option<int>,
    title: Option<string>,
    link: Option<string>,
    risk: Option<int>,
    confidence: Option<int>,
    coderabbitReviews: Option<seq<Review>>,
    generatedTests: Option<seq<GeneratedTest>>,
    testResults: Option<TestResults>,
    riskCategories: Option<RiskCategories>,
    specificRisks: Option<seq<SpecificRisk>>,
    error: Option<string>)

  /** The document written to `output/results_<jobId>.json`. */
  datatype Report = Report(repository: string, processedAt: string, pullRequests: seq<PrResult>)
}
