/** The analysis jobs of the server: the `/api/analyze` parameter check, the
    job record that the pipeline updates field by field, the registry of jobs
    with the output directory the reports are written to, and the
    `/status` and `/results` lookups. */
module Jobs {
  import opened Text
  import opened Records

  // ------------------------------------------------------------ validation

  /** The JSON body of `POST /api/analyze` (the keys the server reads). */
  datatype AnalyzeRequest = AnalyzeRequest(
    githubToken: Option<string>,
    daytonaApiKey: Option<string>,
    openaiApiKey: Option<string>,
    owner: Option<string>,
    repo: Option<string>,
    prNumbers: Option<seq<int>>)

  /** What a background analysis runs with, once the request is accepted. */
  datatype JobInput = JobInput(
    githubToken: string, daytonaApiKey: string, openaiApiKey: string,
    owner: string, repo: string, prNumbers: seq<int>)

  /** The two 400 answers of `/api/analyze`. */
  datatype Rejection = MissingParameters | NoPrsSelected {
    function ErrorText(): string {
      match this
      case MissingParameters => "Missing required parameters"
      case NoPrsSelected => "No PRs selected for analysis"
    }
  }

  datatype Validation = Accepted(input: JobInput) | Refused(reason: Rejection)

  predicate CredentialsGiven(req: AnalyzeRequest) {
    Truthy(req.githubToken) && Truthy(req.daytonaApiKey) && Truthy(req.openaiApiKey) &&
    Truthy(req.owner) && Truthy(req.repo)
  }

  /** `data.get('prNumbers', [])`, a missing or null list read as empty. */
  function PrNumbersOf(req: AnalyzeRequest): seq<int> {
    req.prNumbers.GetOr([])
  }

  /** The checks of `analyze`, in their order: all five strings must be
      non-empty, then the PR list must be non-empty. */
  function ValidateAnalyze(req: AnalyzeRequest): (v: Validation)
    ensures v.Accepted? <==> CredentialsGiven(req) && PrNumbersOf(req) != []
    ensures v == Refused(MissingParameters) <==> !CredentialsGiven(req)
    ensures v == Refused(NoPrsSelected) <==> CredentialsGiven(req) && PrNumbersOf(req) == []
    ensures v.Accepted? ==>
      && v.input.githubToken == req.githubToken.value
      && v.input.daytonaApiKey == req.daytonaApiKey.value
      && v.input.openaiApiKey == req.openaiApiKey.value
      && v.input.owner == req.owner.value && v.input.repo == req.repo.value
      && v.input.prNumbers == req.prNumbers.value && |v.input.prNumbers| > 0
  {
    if !CredentialsGiven(req) then Refused(MissingParameters)
    else if PrNumbersOf(req) == [] then Refused(NoPrsSelected)
    else Accepted(JobInput(req.githubToken.value, req.daytonaApiKey.value, req.openaiApiKey.value,
                           req.owner.value, req.repo.value, req.prNumbers.value))
  }

  /** `f"{owner}_{repo}_{int(time.time())}"` */
  function JobIdOf(owner: string, repo: string, now: int): string {
    owner + "_" + repo + "_" + IntToString(now)
  }

  /** `str(OUTPUT_DIR / f"results_{job_id}.json")` */
  function ResultsFileName(jobId: string): string {
    "output/results_" + jobId + ".json"
  }

  // ------------------------------------------------------------ job record

  datatype JobStatus = Started | Initializing | RequestingTests | WaitingForTests | Completed | Error {
    function Name(): string {
      match this
      case Started => "started"
      case Initializing => "initializing"
      case RequestingTests => "requesting_tests"
      case WaitingForTests => "waiting_for_tests"
      case Completed => "completed"
      case Error => "error"
    }

    predicate Terminal() {
      Completed? || Error?
    }
  }

  /** The status changes the pipeline makes: one step along
      started, initializing, requesting_tests, waiting_for_tests, completed,
      or to error from any status after started that is not terminal. */
  predicate Advances(from: JobStatus, to: JobStatus) {
    || (from == Started && to == Initializing)
    || (from == Initializing && to == RequestingTests)
    || (from == RequestingTests && to == WaitingForTests)
    || (from == WaitingForTests && to == Completed)
    || (from != Started && !from.Terminal() && to == Error)
  }

  /** A history of statuses that starts at `started` and only advances. */
  ghost predicate StatusHistory(log: seq<JobStatus>) {
    && |log| > 0 && log[0] == Started
    && forall i :: 0 < i < |log| ==> Advances(log[i - 1], log[i])
  }

  ghost predicate NonDecreasing(log: seq<int>) {
    forall i, j :: 0 <= i <= j < |log| ==> log[i] <= log[j]
  }

  /** The `message` of a job, by kind and parameters (its wording is not
      modelled). `WaitingElapsed` carries the poll round, which stands for the
      minutes elapsed. */
  datatype Message =
    | AnalysisStarted
    | InitializingClients
    | RequestingTestGeneration(prCount: nat)
    | WaitingForCoderabbit
    | WaitingElapsed(round: nat)
    | PartialTestPrs(found: nat, requested: nat)
    | ProcessingPr(pr: int, position: nat, total: nat)
    | RunningTests(pr: int)
    | AnalyzingWithGpt(pr: int)
    | AnalysisComplete(processed: nat)
    | Failed(error: string)

  /** One value of `analysis_jobs`, updated key by key while the analysis runs.
      The ghost logs keep every status and progress value it has had. */
  class JobRecord {
    var status: JobStatus
    var progress: int
    var message: Message
    const startedAt: int
    var resultsFile: Option<string>
    ghost var statusLog: seq<JobStatus>
    ghost var progressLog: seq<int>

    ghost predicate Valid()
      reads this
    {
      && StatusHistory(statusLog) && statusLog[|statusLog| - 1] == status
      && |progressLog| > 0 && progressLog[|progressLog| - 1] == progress
      && 0 <= progress <= 100
    }

    /** The record as `analyze` creates it. */
    ghost predicate Fresh(now: int)
      reads this
    {
      && status == Started && progress == 0 && message == AnalysisStarted
      && startedAt == now && resultsFile == None
      && statusLog == [Started] && progressLog == [0]
    }

    constructor (now: int)
      ensures Valid() && Fresh(now)
    {
      status, progress, message := Started, 0, AnalysisStarted;
      startedAt, resultsFile := now, None;
      statusLog, progressLog := [Started], [0];
    }

    /** `analysis_jobs[job_id]["status"] = to` */
    method SetStatus(to: JobStatus)
      requires Valid() && Advances(status, to)
      modifies this
      ensures Valid() && status == to && statusLog == old(statusLog) + [to]
      ensures progress == old(progress) && progressLog == old(progressLog)
      ensures message == old(message) && resultsFile == old(resultsFile)
    {
      status := to;
      statusLog := statusLog + [to];
    }

    /** `analysis_jobs[job_id]["progress"] = value` */
    method SetProgress(value: int)
      requires Valid() && 0 <= value <= 100
      modifies this
      ensures Valid() && progress == value && progressLog == old(progressLog) + [value]
      ensures status == old(status) && statusLog == old(statusLog)
      ensures message == old(message) && resultsFile == old(resultsFile)
    {
      progress := value;
      progressLog := progressLog + [value];
    }

    /** `analysis_jobs[job_id]["message"] = m` */
    method SetMessage(m: Message)
      requires Valid()
      modifies this
      ensures Valid() && message == m
      ensures status == old(status) && statusLog == old(statusLog)
      ensures progress == old(progress) && progressLog == old(progressLog)
      ensures resultsFile == old(resultsFile)
    {
      message := m;
    }

    /** `analysis_jobs[job_id]["resultsFile"] = name` */
    method SetResultsFile(name: string)
      requires Valid()
      modifies this
      ensures Valid() && resultsFile == Some(name)
      ensures status == old(status) && statusLog == old(statusLog)
      ensures progress == old(progress) && progressLog == old(progressLog)
      ensures message == old(message)
    {
      resultsFile := Some(name);
    }
  }

  // ------------------------------------------------------------- registry

  datatype AnalyzeReply = JobStarted(jobId: string) | Rejected(reason: Rejection)

  datatype StatusReply =
    | JobNotFound
    | JobState(status: JobStatus, progress: int, message: Message, startedAt: int, resultsFile: Option<string>)

  /** The answers of `/results`: unknown job (404), not completed (400),
      no results file (404), or the report. */
  datatype ResultsReply = ResultsJobNotFound | NotCompletedYet | ResultsFileNotFound | Results(report: Report)

  /** `analysis_jobs` and the `output/` directory. */
  class JobStore {
    var jobs: map<string, JobRecord>
    var files: map<string, Report>

    constructor ()
      ensures jobs == map[] && files == map[]
    {
      jobs, files := map[], map[];
    }

    /** `analyze`: reject a bad request and create nothing, or register a new
        job record under the id made from owner, repo and the clock. A job
        of the same owner and repository started in the same second replaces
        the older record under that id. */
    method Analyze(req: AnalyzeRequest, now: int) returns (reply: AnalyzeReply)
      modifies this
      ensures files == old(files)
      ensures ValidateAnalyze(req).Refused? ==>
        reply == Rejected(ValidateAnalyze(req).reason) && jobs == old(jobs)
      ensures ValidateAnalyze(req).Accepted? ==>
        var id := JobIdOf(req.owner.value, req.repo.value, now);
        && reply == JobStarted(id)
        && id in jobs && fresh(jobs[id]) && jobs[id].Valid() && jobs[id].Fresh(now)
        && jobs == old(jobs)[id := jobs[id]]
    {
      var v := ValidateAnalyze(req);
      match v
      case Refused(reason) =>
        reply := Rejected(reason);
      case Accepted(input) =>
        var id := JobIdOf(input.owner, input.repo, now);
        var job := new JobRecord(now);
        jobs := jobs[id := job];
        reply := JobStarted(id);
    }

    /** `get_analysis_status` */
    method GetStatus(id: string) returns (reply: StatusReply)
      ensures id !in jobs ==> reply == JobNotFound
      ensures id in jobs ==> reply == JobState(jobs[id].status, jobs[id].progress, jobs[id].message,
                                               jobs[id].startedAt, jobs[id].resultsFile)
    {
      if id !in jobs {
        return JobNotFound;
      }
      var job := jobs[id];
      reply := JobState(job.status, job.progress, job.message, job.startedAt, job.resultsFile);
    }

    /** `get_analysis_results`: only a known, completed job with a results
        file yields a report. */
    method GetResults(id: string) returns (reply: ResultsReply)
      ensures reply.Results? <==>
        id in jobs && jobs[id].status == Completed && ResultsFileName(id) in files
      ensures id !in jobs ==> reply == ResultsJobNotFound
      ensures id in jobs && jobs[id].status != Completed ==> reply == NotCompletedYet
      ensures id in jobs && jobs[id].status == Completed && ResultsFileName(id) !in files ==>
        reply == ResultsFileNotFound
      ensures reply.Results? ==> reply.report == files[ResultsFileName(id)]
    {
      if id !in jobs {
        return ResultsJobNotFound;
      }
      var job := jobs[id];
      if job.status != Completed {
        return NotCompletedYet;
      }
      var name := ResultsFileName(id);
      if name !in files {
        return ResultsFileNotFound;
      }
      reply := Results(files[name]);
    }
  }
}
