/** `run_analysis`, the background job behind `/api/analyze`: set up the
    clients, request and then wait for Coderabbit's test PRs, process every
    selected PR into a report entry, write the report, and keep the job
    record's status, progress and message current throughout. */
module Pipeline {
  import opened Text
  import opened Records
  import opened Environment
  import opened Jobs
  import opened TestPrs
  import opened PrEntries

  // ------------------------------------------------------------- progress

  const ProgressBase: int := 30
  const ProgressSpan: int := 60

  /** The progress of line 330 as written: `(idx / total) * (60 / total)`
      divides by the number of PRs twice, so the value is
      `30 + floor(60 * idx / total^2)` (exact arithmetic in place of floats). */
  function ProgressAsWritten(idx: nat, total: nat): int
    requires idx < total
  {
    ProgressBase + (ProgressSpan * idx) / (total * total)
  }

  /** With the PRs dividing the band from 30 to 90 evenly, as the names
      `progress_base` and `progress_per_pr` say: `30 + floor(60 * idx / total)`. */
  function Progress(idx: nat, total: nat): int
    requires idx < total
  {
    ProgressBase + (ProgressSpan * idx) / total
  }

  /** As written, the progress never passes 45, whatever the number of PRs. */
  lemma ProgressAsWrittenStaysLow(idx: nat, total: nat)
    requires idx < total
    ensures 30 <= ProgressAsWritten(idx, total) <= 45
  {
    var t := total;
    assert 60 * idx <= 60 * (t - 1);
    QuadraticBound(t);
    assert 60 * idx < 16 * (t * t);
    DivBelow(60 * idx, t * t, 16);
  }

  /** `4 t^2 - 15 t + 15 > 0`, so `60 (t - 1) < 16 t^2`. */
  lemma QuadraticBound(t: nat)
    requires t >= 1
    ensures 60 * (t - 1) < 16 * (t * t)
  {
    if t >= 4 {
      assert t * t >= 4 * t by { MulLeft(t, 4, t); }
    } else if t == 1 {
    } else if t == 2 {
    } else {
      assert t == 3;
    }
  }

  lemma MulLeft(a: nat, b: nat, c: nat)
    requires a >= b
    ensures a * c >= b * c
  {
  }

  /** `a < q * d` gives `a / d < q`. */
  lemma DivBelow(a: nat, d: nat, q: nat)
    requires d > 0 && a < q * d
    ensures a / d < q
  {
    if a / d >= q {
      MulLeft(a / d, q, d);
    }
  }

  /** Four PRs: the last one is announced at 41 rather than 75. */
  lemma ProgressAsWrittenExample()
    ensures ProgressAsWritten(3, 4) == 41 && Progress(3, 4) == 75
  {
  }

  /** The intended progress starts each run at 30 and stays below 90. */
  lemma ProgressBounds(idx: nat, total: nat)
    requires idx < total
    ensures Progress(0, total) == 30
    ensures 30 <= Progress(idx, total) < 90
  {
    assert 60 * idx < 60 * total;
    DivBelow(60 * idx, total, 60);
  }

  /** The intended progress never goes back as the PRs are processed. */
  lemma ProgressMonotone(i: nat, j: nat, total: nat)
    requires i <= j < total
    ensures Progress(i, total) <= Progress(j, total)
  {
    DivMonotone(60 * i, 60 * j, total);
  }

  lemma DivMonotone(a: nat, b: nat, d: nat)
    requires a <= b && d > 0
    ensures a / d <= b / d
  {
    if a / d > b / d {
      MulLeft(a / d, b / d + 1, d);
    }
  }

  /** The progress never goes back as the PRs are processed, as written too. */
  lemma ProgressAsWrittenMonotone(i: nat, j: nat, total: nat)
    requires i <= j < total
    ensures ProgressAsWritten(i, total) <= ProgressAsWritten(j, total)
  {
    DivMonotone(60 * i, 60 * j, total * total);
  }

  /** The progress values the server announces while the PRs are processed
      (line 330 as written). */
  function PerPrProgress(total: nat): seq<int> {
    seq(total, i requires 0 <= i < total => ProgressAsWritten(i, total))
  }

  /** Every progress value of a successful run, in order. */
  function SuccessProgress(total: nat): seq<int> {
    [0, 5, 10, 20] + PerPrProgress(total) + [100]
  }

  /** A successful run's progress never goes back and stays within 0 to 100. */
  lemma SuccessProgressIncreases(total: nat)
    ensures NonDecreasing(SuccessProgress(total))
    ensures forall k :: 0 <= k < |SuccessProgress(total)| ==> 0 <= SuccessProgress(total)[k] <= 100
  {
    var p := SuccessProgress(total);
    forall k | 4 <= k < 4 + total ensures 30 <= p[k] <= 45 {
      ProgressAsWrittenStaysLow(k - 4, total);
    }
    forall i, j | 0 <= i <= j < |p| ensures p[i] <= p[j] {
      if 4 <= i && j < 4 + total {
        ProgressAsWrittenMonotone(i - 4, j - 4, total);
      }
    }
  }

  // -------------------------------------------------------------- the run

  /** Where the run ends: with a report, or at the step that raised. */
  datatype RunOutcome =
    | Finished(report: Report)
    | InitFailed(error: string)
    | PollFailed(error: string)
    | SaveFailed(error: string)
  {
    function ErrorText(): string
      requires !Finished?
    {
      match this
      case InitFailed(e) => e
      case PollFailed(e) => e
      case SaveFailed(e) => e
    }
  }

  /** The report's entries, one per selected PR, in order. */
  function Entries(owner: string, repo: string, prs: seq<int>, testPrs: map<int, int>, env: Env): seq<PrResult> {
    MapEach(pr => EntryOf(owner, repo, pr, testPrs, env), prs)
  }

  function MapEach<A, B>(f: A -> B, s: seq<A>): seq<B> {
    seq(|s|, i requires 0 <= i < |s| => f(s[i]))
  }

  lemma MapEachGrows<A, B>(f: A -> B, s: seq<A>, i: nat)
    requires i < |s|
    ensures MapEach(f, s[..i + 1]) == MapEach(f, s[..i]) + [f(s[i])]
  {
  }

  /** The map handed to step 3: the request phase's, completed by polling. */
  function TestPrMap(prs: seq<int>, env: Env): Reply<PollOutcome> {
    PollFrom(RequestAll(prs, env).testPrs, prs, env, 0)
  }

  function OutcomeOf(input: JobInput, env: Env): RunOutcome {
    if env.initError.Some? then InitFailed(env.initError.value)
    else match TestPrMap(input.prNumbers, env)
      case Raised(e) => PollFailed(e)
      case Returned(o) =>
        if env.saveError.Some? then SaveFailed(env.saveError.value)
        else Finished(Report(input.owner + "/" + input.repo, env.processedAt,
                             Entries(input.owner, input.repo, input.prNumbers, o.testPrs, env)))
  }

  /** A finished report has one entry per selected PR, in the order of the
      selection: entry `i` is the entry of the `i`-th PR, and each has a risk; an entry whose processing raised names
      its own PR; and the PRs that get a sandbox run are PRs of the selection
      whose test PR some query of the request or the poll phase found. */
  lemma FinishedReport(input: JobInput, env: Env)
    requires OutcomeOf(input, env).Finished?
    ensures var report := OutcomeOf(input, env).report;
      var testPrs := TestPrMap(input.prNumbers, env).value.testPrs;
      && report.repository == input.owner + "/" + input.repo
      && |report.pullRequests| == |input.prNumbers|
      && (forall i :: 0 <= i < |input.prNumbers| ==>
            report.pullRequests[i] == EntryOf(input.owner, input.repo, input.prNumbers[i], testPrs, env))
      && (forall i :: 0 <= i < |input.prNumbers| ==> report.pullRequests[i].risk.Some?)
      && (forall i :: 0 <= i < |input.prNumbers| && Attempt(input.prNumbers[i], testPrs, env).Raised? ==>
            report.pullRequests[i].id == Some(input.prNumbers[i]))
      && (forall x :: x in testPrs ==>
            x in input.prNumbers && exists c :: 0 <= c <= env.pollRounds && FoundAt(env, x, c))
  {
    var prs := input.prNumbers;
    var t := RequestAll(prs, env);
    RequestAllFacts(prs, env);
    PollFromFacts(t.testPrs, prs, env, 0);
    var o := TestPrMap(prs, env).value;
    forall x | x in o.testPrs
      ensures exists c :: 0 <= c <= env.pollRounds && FoundAt(env, x, c)
    {
      if x in t.testPrs {
        assert FoundAt(env, x, 0);
      }
    }
  }

  /** The statuses a run passes through, given where it ends. */
  function StatusesOf(outcome: RunOutcome): seq<JobStatus> {
    match outcome
    case Finished(_) => [Started, Initializing, RequestingTests, WaitingForTests, Completed]
    case InitFailed(_) => [Started, Initializing, Error]
    case _ => [Started, Initializing, RequestingTests, WaitingForTests, Error]
  }

  /** The progress values a run announces, given where it ends. */
  function ProgressOf(outcome: RunOutcome, total: nat): seq<int> {
    match outcome
    case Finished(_) => SuccessProgress(total)
    case InitFailed(_) => [0, 5, 0]
    case PollFailed(_) => [0, 5, 10, 20, 0]
    case SaveFailed(_) => [0, 5, 10, 20] + PerPrProgress(total) + [0]
  }

  /** Every run goes through the legal statuses only and ends in a terminal
      one: completed exactly when it finished. */
  lemma StatusesLegal(outcome: RunOutcome)
    ensures StatusHistory(StatusesOf(outcome))
    ensures StatusesOf(outcome)[|StatusesOf(outcome)| - 1].Terminal()
    ensures StatusesOf(outcome)[|StatusesOf(outcome)| - 1] == Completed <==> outcome.Finished?
  {
  }

  /** `run_analysis` on a freshly registered job: the record ends completed
      at 100 with the report stored under its results file, or in error at 0
      with the error message and nothing stored; the statuses and progress
      values it passed through are those of `StatusesOf` and `ProgressOf`. */
  method RunAnalysis(store: JobStore, id: string, job: JobRecord, input: JobInput, env: Env)
    requires id in store.jobs && store.jobs[id] == job
    requires job.Valid() && job.Fresh(job.startedAt)
    modifies job, store`files
    ensures job.Valid()
    ensures store.jobs == old(store.jobs)
    ensures job.statusLog == StatusesOf(OutcomeOf(input, env))
    ensures job.progressLog == ProgressOf(OutcomeOf(input, env), |input.prNumbers|)
    ensures OutcomeOf(input, env).Finished? ==>
      && job.status == Completed && job.progress == 100
      && job.message == AnalysisComplete(|input.prNumbers|)
      && job.resultsFile == Some(ResultsFileName(id))
      && store.files == old(store.files)[ResultsFileName(id) := OutcomeOf(input, env).report]
    ensures !OutcomeOf(input, env).Finished? ==>
      && job.status == Error && job.progress == 0
      && job.message == Failed(OutcomeOf(input, env).ErrorText())
      && job.resultsFile == None && store.files == old(store.files)
  {
    var prs := input.prNumbers;
    job.SetStatus(Initializing);
    job.SetMessage(InitializingClients);
    job.SetProgress(5);
    if env.initError.Some? {
      assert OutcomeOf(input, env) == InitFailed(env.initError.value);
      Fail(job, env.initError.value);
      return;
    }
    RunWithClients(store, id, job, input, env);
  }

  /** Everything after the clients are set up. */
  method RunWithClients(store: JobStore, id: string, job: JobRecord, input: JobInput, env: Env)
    requires env.initError.None?
    requires job.Valid() && job.status == Initializing && job.resultsFile == None
    requires job.statusLog == [Started, Initializing] && job.progressLog == [0, 5]
    modifies job, store`files
    ensures job.Valid()
    ensures job.statusLog == StatusesOf(OutcomeOf(input, env))
    ensures job.progressLog == ProgressOf(OutcomeOf(input, env), |input.prNumbers|)
    ensures OutcomeOf(input, env).Finished? ==>
      && job.status == Completed && job.progress == 100
      && job.message == AnalysisComplete(|input.prNumbers|)
      && job.resultsFile == Some(ResultsFileName(id))
      && store.files == old(store.files)[ResultsFileName(id) := OutcomeOf(input, env).report]
    ensures !OutcomeOf(input, env).Finished? ==>
      && job.status == Error && job.progress == 0
      && job.message == Failed(OutcomeOf(input, env).ErrorText())
      && job.resultsFile == None && store.files == old(store.files)
  {
    var prs := input.prNumbers;
    var polled := FindTestPrs(job, prs, env);
    if polled.Raised? {
      assert OutcomeOf(input, env) == PollFailed(polled.message);
      Fail(job, polled.message);
      return;
    }
    FinishRun(store, id, job, input, env, polled.value.testPrs);
  }

  /** Step 3 and the end of the run, once the test PRs are known. */
  method FinishRun(store: JobStore, id: string, job: JobRecord, input: JobInput, env: Env, testPrs: map<int, int>)
    requires env.initError.None?
    requires TestPrMap(input.prNumbers, env).Returned? && TestPrMap(input.prNumbers, env).value.testPrs == testPrs
    requires job.Valid() && job.status == WaitingForTests && job.resultsFile == None
    requires job.statusLog == [Started, Initializing, RequestingTests, WaitingForTests]
    requires job.progressLog == [0, 5, 10, 20]
    modifies job, store`files
    ensures job.Valid()
    ensures job.statusLog == StatusesOf(OutcomeOf(input, env))
    ensures job.progressLog == ProgressOf(OutcomeOf(input, env), |input.prNumbers|)
    ensures OutcomeOf(input, env).Finished? ==>
      && job.status == Completed && job.progress == 100
      && job.message == AnalysisComplete(|input.prNumbers|)
      && job.resultsFile == Some(ResultsFileName(id))
      && store.files == old(store.files)[ResultsFileName(id) := OutcomeOf(input, env).report]
    ensures !OutcomeOf(input, env).Finished? ==>
      && job.status == Error && job.progress == 0
      && job.message == Failed(OutcomeOf(input, env).ErrorText())
      && job.resultsFile == None && store.files == old(store.files)
  {
    var entries := ProcessAll(job, input.owner, input.repo, input.prNumbers, testPrs, env);
    if env.saveError.Some? {
      assert OutcomeOf(input, env) == SaveFailed(env.saveError.value);
      Fail(job, env.saveError.value);
      return;
    }
    var report := Report(input.owner + "/" + input.repo, env.processedAt, entries);
    assert OutcomeOf(input, env) == Finished(report);
    Complete(store, job, ResultsFileName(id), report);
  }

  /** Steps 1 and 2: request the tests, then poll for the test PRs. */
  method FindTestPrs(job: JobRecord, prs: seq<int>, env: Env) returns (polled: Reply<PollOutcome>)
    requires job.Valid() && job.status == Initializing
    modifies job
    ensures polled == TestPrMap(prs, env)
    ensures job.Valid() && job.status == WaitingForTests
    ensures job.statusLog == old(job.statusLog) + [RequestingTests, WaitingForTests]
    ensures job.progressLog == old(job.progressLog) + [10, 20]
    ensures job.resultsFile == old(job.resultsFile)
  {
    job.SetStatus(RequestingTests);
    job.SetMessage(RequestingTestGeneration(|prs|));
    job.SetProgress(10);
    var requested := RequestTests(prs, env);

    job.SetStatus(WaitingForTests);
    job.SetMessage(WaitingForCoderabbit);
    job.SetProgress(20);
    polled := PollTestPrs(job, requested.testPrs, prs, env);
    if polled.Returned? && |polled.value.testPrs| < |prs| {
      job.SetMessage(PartialTestPrs(|polled.value.testPrs|, |prs|));
    }
  }

  /** The end of a successful run: the report is written and the job
      completed. */
  method Complete(store: JobStore, job: JobRecord, name: string, report: Report)
    requires job.Valid() && job.status == WaitingForTests
    modifies job, store`files
    ensures store.files == old(store.files)[name := report]
    ensures job.Valid() && job.status == Completed && job.progress == 100
    ensures job.message == AnalysisComplete(|report.pullRequests|) && job.resultsFile == Some(name)
    ensures job.statusLog == old(job.statusLog) + [Completed]
    ensures job.progressLog == old(job.progressLog) + [100]
  {
    store.files := store.files[name := report];
    job.SetStatus(Completed);
    job.SetProgress(100);
    job.SetMessage(AnalysisComplete(|report.pullRequests|));
    job.SetResultsFile(name);
  }

  /** The per-PR loop: one entry per PR, in order, with the progress of
      each PR announced before it is processed. */
  method ProcessAll(job: JobRecord, owner: string, repo: string, prs: seq<int>, testPrs: map<int, int>, env: Env)
    returns (entries: seq<PrResult>)
    requires job.Valid()
    modifies job
    ensures entries == Entries(owner, repo, prs, testPrs, env)
    ensures job.Valid()
    ensures job.status == old(job.status) && job.statusLog == old(job.statusLog)
    ensures job.progressLog == old(job.progressLog) + PerPrProgress(|prs|)
    ensures job.resultsFile == old(job.resultsFile)
  {
    entries := [];
    var total := |prs|;
    ghost var progress := PerPrProgress(total);
    ghost var before := job.progressLog;
    for idx := 0 to total
      invariant job.Valid()
      invariant job.status == old(job.status) && job.statusLog == old(job.statusLog)
      invariant job.progressLog == before + progress[..idx]
      invariant job.resultsFile == old(job.resultsFile)
      invariant entries == Entries(owner, repo, prs[..idx], testPrs, env)
    {
      var entry := ProcessNth(job, owner, repo, prs, idx, testPrs, env);
      PrefixGrows(progress, idx);
      MapEachGrows(pr => EntryOf(owner, repo, pr, testPrs, env), prs, idx);
      entries := entries + [entry];
    }
    assert progress[..total] == progress;
    assert prs[..total] == prs;
  }

  lemma PrefixGrows<T>(s: seq<T>, i: nat)
    requires i < |s|
    ensures s[..i + 1] == s[..i] + [s[i]]
  {
  }

  /** One turn of the per-PR loop: the progress and message for the PR at
      position `idx`, then its entry. */
  method ProcessNth(job: JobRecord, owner: string, repo: string, prs: seq<int>, idx: nat,
                    testPrs: map<int, int>, env: Env)
    returns (entry: PrResult)
    requires job.Valid() && idx < |prs|
    modifies job
    ensures entry == EntryOf(owner, repo, prs[idx], testPrs, env)
    ensures job.Valid()
    ensures job.status == old(job.status) && job.statusLog == old(job.statusLog)
    ensures job.progressLog == old(job.progressLog) + [PerPrProgress(|prs|)[idx]]
    ensures job.resultsFile == old(job.resultsFile)
  {
    ProgressAsWrittenStaysLow(idx, |prs|);
    job.SetProgress(ProgressAsWritten(idx, |prs|));
    job.SetMessage(ProcessingPr(prs[idx], idx + 1, |prs|));
    entry := ProcessPr(job, owner, repo, prs[idx], testPrs, env);
  }

  /** The `except` branch of `run_analysis`. */
  method Fail(job: JobRecord, error: string)
    requires job.Valid() && job.status != Started && !job.status.Terminal()
    modifies job
    ensures job.Valid() && job.status == Error && job.progress == 0 && job.message == Failed(error)
    ensures job.statusLog == old(job.statusLog) + [Error]
    ensures job.progressLog == old(job.progressLog) + [0]
    ensures job.resultsFile == old(job.resultsFile)
  {
    job.SetStatus(Error);
    job.SetMessage(Failed(error));
    job.SetProgress(0);
  }
}
