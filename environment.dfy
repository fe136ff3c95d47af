/** What the background analysis learns from the outside world. Every call
    into GitHub, the sandbox runner, the PR processor and the OpenAI API is a
    function of its arguments that returns a value or raises; the clock is
    replaced by the number of poll rounds that fit in the waiting budget. */
module Environment {
  import opened Text
  import opened Records
  import opened GptAnalyzer

  /** `max_wait_time` and `check_interval` of the poll loop, in seconds. */
  const MaxWaitSeconds: nat := 15 * 60
  const CheckIntervalSeconds: nat := 60

  datatype Env = Env(
    /** The error a client constructor raised, if one did. */
    initError: Option<string>,
    /** `find_coderabbit_test_pr(owner, repo, pr)`: the number of the test PR
        found, at call round 0 (the request phase) or 1 + the poll round. */
    findTestPr: (int, nat) -> Reply<Option<int>>,
    /** `has_test_generation_request(owner, repo, pr)` */
    hasTestRequest: int -> Reply<bool>,
    /** Whether `trigger_unit_test_generation(owner, repo, pr, force=False)`
        returned a truthy comment. */
    triggerTests: int -> Reply<bool>,
    /** How many poll rounds start before the waiting budget runs out. */
    pollRounds: nat,
    /** `processor.process_pr(owner, repo, pr, skip_tests, skip_gpt=False)` */
    processPr: (int, bool) -> Reply<PrResult>,
    /** `processor._run_tests_in_daytona(owner, repo, pr, testPr)` */
    runTests: (int, int) -> Reply<TestResults>,
    /** `github_client.get_pr_info(owner, repo, pr)` */
    prInfo: int -> Reply<PrInfo>,
    /** `processor._get_pr_files(owner, repo, pr)` */
    prFiles: int -> Reply<CodeFiles>,
    /** The chat completion call of `analyze_pr`, on the prompt it is given. */
    gpt: PromptFacts -> Reply<Analysis>,
    /** `time.strftime("%Y-%m-%dT%H:%M:%S")` when the report is assembled. */
    processedAt: string,
    /** The error writing the results file raised, if one did. */
    saveError: Option<string>)

  /** The first round starts at once and each round sleeps a full interval,
      so between one and fifteen rounds start within the budget. */
  predicate ClockConsistent(env: Env) {
    1 <= env.pollRounds <= MaxWaitSeconds / CheckIntervalSeconds
  }

  /** A call of `find_coderabbit_test_pr` that found a test PR. */
  predicate FoundAt(env: Env, pr: int, call: nat) {
    env.findTestPr(pr, call).Returned? && env.findTestPr(pr, call).value.Some?
  }
}
