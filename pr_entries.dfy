/** Step 3 of the analysis for one PR: the processor's entry, the sandbox
    test run when a test PR exists, the GPT analysis merged into the entry,
    and the error entry that replaces all of it when any call raises. */
module PrEntries {
  import opened Text
  import opened Records
  import opened GptAnalyzer
  import opened Environment
  import opened Jobs

  // ------------------------------------------------------- review updates

  /** `review.update(patch)`: every key the patch holds overwrites the review's. */
  function Patched(r: Review, p: ReviewPatch): Review {
    Review(
      if p.name.Some? then p.name else r.name,
      if p.kind.Some? then p.kind else r.kind,
      if p.risk.Some? then p.risk else r.risk,
      if p.description.Some? then p.description else r.description)
  }

  /** A review whose name is a key of `reviewUpdates` gets that patch. */
  function UpdatedReview(r: Review, updates: map<string, ReviewPatch>): Review {
    if r.name.Some? && r.name.value in updates then Patched(r, updates[r.name.value]) else r
  }

  function UpdatedReviews(reviews: seq<Review>, updates: map<string, ReviewPatch>): seq<Review> {
    seq(|reviews|, i requires 0 <= i < |reviews| => UpdatedReview(reviews[i], updates))
  }

  /** The review-update loop: each review is patched by the update filed
      under its name, keeps every key the patch lacks, and a review without
      a listed name is left as it was. */
  method ApplyReviewUpdates(reviews: seq<Review>, updates: map<string, ReviewPatch>) returns (out: seq<Review>)
    ensures |out| == |reviews|
    ensures forall i :: 0 <= i < |reviews| && (reviews[i].name.None? || reviews[i].name.value !in updates) ==>
      out[i] == reviews[i]
    ensures forall i :: 0 <= i < |reviews| && reviews[i].name.Some? && reviews[i].name.value in updates ==>
      var p := updates[reviews[i].name.value];
      && out[i].name == (if p.name.Some? then p.name else reviews[i].name)
      && out[i].kind == (if p.kind.Some? then p.kind else reviews[i].kind)
      && out[i].risk == (if p.risk.Some? then p.risk else reviews[i].risk)
      && out[i].description == (if p.description.Some? then p.description else reviews[i].description)
    ensures out == UpdatedReviews(reviews, updates)
  {
    out := [];
    var i := 0;
    while i < |reviews|
      invariant 0 <= i <= |reviews| && |out| == i
      invariant forall k :: 0 <= k < i ==> out[k] == UpdatedReview(reviews[k], updates)
    {
      var review := reviews[i];
      if review.name.Some? && review.name.value in updates {
        review := Patched(review, updates[review.name.value]);
      }
      out := out + [review];
      i := i + 1;
    }
  }

  // ------------------------------------------------------------ one entry

  /** `f"https://github.com/{owner}/{repo}/pull/{pr_number}"` */
  function PrLink(owner: string, repo: string, pr: int): string {
    "https://github.com/" + owner + "/" + repo + "/pull/" + IntToString(pr)
  }

  /** The entry appended when processing a PR raised. */
  function FailureEntry(owner: string, repo: string, pr: int, error: string): PrResult {
    PrResult(Some(pr), Some("PR #" + IntToString(pr)), Some(PrLink(owner, repo, pr)), Some(0),
             None, None, None, None, None, None, Some(error))
  }

  /** The processor's entry, with the sandbox run added when the PR has a
      test PR. */
  function TestedResult(pr: int, testPrs: map<int, int>, env: Env): Reply<PrResult> {
    match env.processPr(pr, pr !in testPrs)
    case Raised(e) => Raised(e)
    case Returned(base) =>
      if pr !in testPrs then Returned(base)
      else match env.runTests(pr, testPrs[pr])
        case Raised(e) => Raised(e)
        case Returned(tr) => Returned(base.(testResults := Some(tr), generatedTests := Some(tr.generatedTests.GetOr([]))))
  }

  /** The keys the server takes from the GPT analysis. */
  function Merged(result: PrResult, analysis: Analysis): PrResult {
    result.(
      risk := Some(analysis.risk.GetOr(0)),
      riskCategories := if analysis.riskCategories.Some? then analysis.riskCategories else result.riskCategories,
      specificRisks := if analysis.specificRisks.Some? then analysis.specificRisks else result.specificRisks,
      coderabbitReviews :=
        if result.coderabbitReviews.Some?
        then Some(UpdatedReviews(result.coderabbitReviews.value, analysis.reviewUpdates.GetOr(map[])))
        else None)
  }

  /** The body of the `try` for one PR: the finished entry, or what raised. */
  function Attempt(pr: int, testPrs: map<int, int>, env: Env): Reply<PrResult> {
    match TestedResult(pr, testPrs, env)
    case Raised(e) => Raised(e)
    case Returned(result) =>
      match env.prInfo(pr)
      case Raised(e) => Raised(e)
      case Returned(info) =>
        match env.prFiles(pr)
        case Raised(e) => Raised(e)
        case Returned(files) =>
          var facts := PromptFactsOf(info, result.coderabbitReviews.GetOr([]), result.testResults, files);
          Returned(Merged(result, AnalysisFrom(env.gpt(facts))))
  }

  /** The entry the report holds for `pr`: the finished entry, or the error
      entry when any call raised. Every entry carries a risk. */
  function EntryOf(owner: string, repo: string, pr: int, testPrs: map<int, int>, env: Env): (e: PrResult)
    ensures e.risk.Some?
  {
    match Attempt(pr, testPrs, env)
    case Raised(error) => FailureEntry(owner, repo, pr, error)
    case Returned(entry) => entry
  }

  /** A failed PR gets the error entry: its own number, title and link, the
      error text and risk 0. A processed PR keeps the identity, confidence and
      error keys of the processor's entry; it carries the sandbox run (and
      the generated tests of that run) exactly when it has a test PR; its
      reviews keep their number; the prompt counts the tests of the run just
      made. A returned analysis supplies the risk (0 when it has none) and
      replaces the risk categories and specific risks only where it has them;
      when the GPT call itself fails, the fallback risk of 50 is stored
      rather than an error entry. */
  lemma EntryFacts(owner: string, repo: string, pr: int, testPrs: map<int, int>, env: Env)
    ensures var e := EntryOf(owner, repo, pr, testPrs, env);
      Attempt(pr, testPrs, env).Raised? ==>
      && e.id == Some(pr) && e.title == Some("PR #" + IntToString(pr)) && e.link == Some(PrLink(owner, repo, pr))
      && e.error == Some(Attempt(pr, testPrs, env).message) && e.risk == Some(0)
      && e.testResults.None? && e.generatedTests.None? && e.coderabbitReviews.None?
    ensures var e := EntryOf(owner, repo, pr, testPrs, env);
      env.processPr(pr, pr !in testPrs).Returned? && Attempt(pr, testPrs, env).Returned? ==>
      var base := env.processPr(pr, pr !in testPrs).value;
      && e.id == base.id && e.title == base.title && e.link == base.link
      && e.confidence == base.confidence && e.error == base.error
      && (pr in testPrs ==>
            && env.runTests(pr, testPrs[pr]).Returned?
            && e.testResults == Some(env.runTests(pr, testPrs[pr]).value)
            && e.generatedTests == Some(env.runTests(pr, testPrs[pr]).value.generatedTests.GetOr([])))
      && (pr !in testPrs ==> e.testResults == base.testResults && e.generatedTests == base.generatedTests)
      && (base.coderabbitReviews.None? <==> e.coderabbitReviews.None?)
      && (base.coderabbitReviews.Some? ==> |e.coderabbitReviews.value| == |base.coderabbitReviews.value|)
    ensures var e := EntryOf(owner, repo, pr, testPrs, env);
      Attempt(pr, testPrs, env).Returned? && TestedResult(pr, testPrs, env).Returned? ==>
      var result := TestedResult(pr, testPrs, env).value;
      var facts := PromptFactsOf(env.prInfo(pr).value, result.coderabbitReviews.GetOr([]), result.testResults,
                                 env.prFiles(pr).value);
      && (pr in testPrs ==> facts.tally == TallyOf(Some(env.runTests(pr, testPrs[pr]).value)))
      && (env.gpt(facts).Raised? ==>
            e.risk == Some(FallbackRisk) && e.riskCategories == result.riskCategories &&
            e.specificRisks == result.specificRisks && e.error == result.error)
      && (env.gpt(facts).Returned? ==>
            var a := env.gpt(facts).value;
            && e.risk == Some(a.risk.GetOr(0))
            && e.riskCategories == (if a.riskCategories.Some? then a.riskCategories else result.riskCategories)
            && e.specificRisks == (if a.specificRisks.Some? then a.specificRisks else result.specificRisks)
            && e.error == result.error)
  {
  }

  /** The `try` block for one PR in `run_analysis`; it also sets the job's
      message as it goes. */
  method ProcessPr(job: JobRecord, owner: string, repo: string, pr: int, testPrs: map<int, int>, env: Env)
    returns (entry: PrResult)
    requires job.Valid()
    modifies job
    ensures entry == EntryOf(owner, repo, pr, testPrs, env)
    ensures job.Valid()
    ensures job.status == old(job.status) && job.statusLog == old(job.statusLog)
    ensures job.progress == old(job.progress) && job.progressLog == old(job.progressLog)
    ensures job.resultsFile == old(job.resultsFile)
  {
    var processed := env.processPr(pr, pr !in testPrs);
    if processed.Raised? {
      return FailureEntry(owner, repo, pr, processed.message);
    }
    var result := processed.value;
    if pr in testPrs {
      job.SetMessage(RunningTests(pr));
      var run := env.runTests(pr, testPrs[pr]);
      if run.Raised? {
        return FailureEntry(owner, repo, pr, run.message);
      }
      result := result.(testResults := Some(run.value), generatedTests := Some(run.value.generatedTests.GetOr([])));
    }
    assert TestedResult(pr, testPrs, env) == Returned(result);
    job.SetMessage(AnalyzingWithGpt(pr));
    var info := env.prInfo(pr);
    if info.Raised? {
      return FailureEntry(owner, repo, pr, info.message);
    }
    var files := env.prFiles(pr);
    if files.Raised? {
      return FailureEntry(owner, repo, pr, files.message);
    }
    var analysis := AnalyzePr(info.value, result.coderabbitReviews.GetOr([]), result.testResults, files.value, env.gpt);
    result := result.(risk := Some(analysis.risk.GetOr(0)));
    if analysis.riskCategories.Some? {
      result := result.(riskCategories := analysis.riskCategories);
    }
    if analysis.specificRisks.Some? {
      result := result.(specificRisks := analysis.specificRisks);
    }
    if result.coderabbitReviews.Some? {
      var updated := ApplyReviewUpdates(result.coderabbitReviews.value, analysis.reviewUpdates.GetOr(map[]));
      result := result.(coderabbitReviews := Some(updated));
    }
    entry := result;
  }
}
