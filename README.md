# ShipSure analysis core, modelled in Dafny

ShipSure is a Flask server that rates the risk of GitHub pull requests. A
client picks PRs of a repository. `POST /api/analyze` checks the request and
registers a job record. A background run then does five things:

- asks Coderabbit to generate unit tests for every selected PR that needs them;
- polls for the test PRs Coderabbit opens;
- processes each PR into one report entry: the sandbox test run, the GPT
  analysis merged into the entry, or an error entry;
- writes the report to `output/results_<jobId>.json`;
- keeps the job's status, progress and message current throughout.

`/status` reports the record. `/results` returns the report only for a
completed job. The PR listing hides the test PRs Coderabbit opened. The GPT
analyzer classifies the changed code by keyword and formats the generated
tests. It reads the pass/fail counts out of the pytest output, and it falls
back to a fixed answer when the OpenAI call fails.

The modules follow the program:

| file | module | what |
|---|---|---|
| text.dfy | Text | Python values: optional keys, calls that raise, `lower()`, `in`, `join`, `str(int)` |
| records.dfy | Records | the dictionaries passed between the components, as datatypes |
| pr_filter.dfy | PrFilter | `is_test_pr`, the filter and the PR listing endpoint |
| test_counts.dfy | TestCounts | `re.search(r'(\d+)\s+passed', output)` and `int(...)` of its group |
| gpt_analyzer.dfy | GptAnalyzer | `_analyze_code_type`, `_format_generated_tests`, the counting block, `analyze_pr` |
| jobs.dfy | Jobs | `/api/analyze` validation, the job record (a class), the job registry, `/status`, `/results` |
| environment.dfy | Environment | the outside calls of a run, as functions that return a value or raise |
| test_prs.dfy | TestPrs | `run_analysis` steps 1 and 2: the request loop and the poll loop |
| pr_entries.dfy | PrEntries | step 3 for one PR: the entry, the merge and the error entry |
| pipeline.dfy | Pipeline | `run_analysis` as a whole: progress, outcome, statuses, the report |

A dictionary with optional keys is a datatype with `Option` fields (`Some`
means the key is present). Every outside call is a field of `Env`. Each such
field is a function of the call's arguments that returns a value or
`Raised(message)`. The clock is replaced by `pollRounds`, the number of
poll rounds that start before the 15-minute budget runs out. Calls of
`find_coderabbit_test_pr` are told apart by their round: 0 in the request
loop, and `r + 1` in poll round `r`.

The job record is a class. Its fields are updated one at a time, as the
server updates the keys of `analysis_jobs[job_id]`. Ghost logs keep every
status and progress value the record has had. `RunAnalysis` is proved
against `OutcomeOf`, a function of the input and the environment. The
statuses, progress values and report it leaves are stated as functions of
that outcome, and lemmas state what those functions promise.

## Model

| member | source | states |
|---|---|---|
| Text.Lower | server.py:118-119 | ASCII `lower()`: same length, each character lower-cased on its own |
| Text.IntToString | server.py:385-386 | `str(n)`: a non-empty decimal text, with a leading `-` exactly for negative numbers |
| PrFilter.TestTitleTwoPhrases | server.py:120-127 | the four title phrases amount to "unit test" or "test for pr", since the first two contain "unit test" |
| PrFilter.IsTestPr | server.py:117-127 | `is_test_pr`: the lower-cased login (`""` without a user or login) contains "coderabbit" or "bot", and the lower-cased title (`""` without one) contains one of the four phrases; what the filter does with it is stated by `WithoutTestPrsKeeps` |
| PrFilter.FilterCounts | server.py:129 | a comprehension with a condition keeps only elements that satisfy it, each as often as it occurs in the input |
| PrFilter.FilterAppend | server.py:129 | the comprehension distributes over concatenation, so it keeps the input order |
| PrFilter.WithoutTestPrs | server.py:129 | the filtered list is no longer than the input |
| PrFilter.WithoutTestPrsKeeps | server.py:117-129 | no test PR survives the filter; every other PR is kept exactly as often as it occurs |
| PrFilter.WithoutTestPrsAppend | server.py:129 | the filter of a concatenation is the concatenation of the filters (order kept) |
| PrFilter.SummarizeAll | server.py:131-141 | one summary per kept PR, in order |
| PrFilter.ListPrs | server.py:105-147 | 400 exactly when the token is falsy; 500 exactly when the listing raises; otherwise the list is exactly the summaries of the non-test PRs, in order |
| PrFilter.ListedPrsAreNoTestPrs | server.py:114-141 | the listed PRs are the kept ones, one each with its number, and none is by a bot with a test title |
| TestCounts.DigitsValueOfNatToString | backend/gpt_analyzer.py:99 | `int(str(n)) == n` for the decimal digits the regex captures |
| TestCounts.DigitRunEnd | backend/gpt_analyzer.py:97 | `\d+` read greedily: every character up to the end is a digit, and the next one is not |
| TestCounts.SpaceRunEnd | backend/gpt_analyzer.py:97 | `\s+` read greedily: every character up to the end is whitespace in the sense of Python's `str.isspace` (ASCII 9-13 and 28-32, and the Unicode spaces), and the next one is not |
| TestCounts.GreedyMatchIsPattern | backend/gpt_analyzer.py:97 | the regex matches at an offset exactly when the greedy reading does, and every match there captures the same digits |
| TestCounts.SearchFrom | backend/gpt_analyzer.py:97 | the offset `re.search` reports lies in the text and the matcher succeeds there |
| TestCounts.SearchFromIsLeftmost | backend/gpt_analyzer.py:97 | it is the leftmost such offset, and without one the matcher fails everywhere |
| TestCounts.SeparatorIsSpace | backend/gpt_analyzer.py:97 | the separator `\x1f` counts as whitespace: `"3\x1fpassed"` yields 3 |
| TestCounts.CountBeforeIsLeftmostMatch | backend/gpt_analyzer.py:97-99 | no count exactly when the pattern matches nowhere; otherwise the count is the value of the leftmost match's digits |
| TestCounts.CountBefore | backend/gpt_analyzer.py:97-99 | `int(match.group(1))` of the first match, or none; its meaning in terms of the pattern is `CountBeforeIsLeftmostMatch` |
| TestCounts.CountImpliesContains | backend/gpt_analyzer.py:95-97 | whenever the pattern matches, the text contains the word, so the `"passed" in output` guard changes nothing |
| GptAnalyzer.FileNames | backend/gpt_analyzer.py:235 | one name per file, in order |
| GptAnalyzer.FileContents | backend/gpt_analyzer.py:236 | one content per file, in order |
| GptAnalyzer.ContainsInLoweredJoin | backend/gpt_analyzer.py:235-237 | a lower-case keyword occurs in the lowered, joined text exactly when it occurs in one lowered part |
| GptAnalyzer.CombinedMentions | backend/gpt_analyzer.py:235-239 | a keyword group matches the combined text exactly when it matches one file name or one of the first three contents |
| GptAnalyzer.KeywordsArePlain | backend/gpt_analyzer.py:239-246 | every keyword is non-empty and free of spaces, so a keyword never straddles the space joining two texts |
| GptAnalyzer.PriorityOrder | backend/gpt_analyzer.py:239-248 | the classification is the first group that matches, in the order auth, db, api, payment, else general |
| GptAnalyzer.AnalyzeCodeType | backend/gpt_analyzer.py:233-248 | no files always give `general` |
| GptAnalyzer.CodeTypeByFiles | backend/gpt_analyzer.py:235-248 | each of the five answers holds exactly when its group occurs in the lower-cased text of a file name or of one of the first three contents and no earlier group does |
| GptAnalyzer.BlocksAt | backend/gpt_analyzer.py:216-226 | block `i` is the block of test `i`, numbered from the first number |
| GptAnalyzer.FormattedEntriesShape | backend/gpt_analyzer.py:212-229 | min(n, 10) blocks numbered 1, 2, ... in input order, with the overflow line exactly when n > 10, last, and counting n - 10 |
| GptAnalyzer.BlockIsNoOverflow | backend/gpt_analyzer.py:221-226 | a test block never reads as the overflow line |
| GptAnalyzer.OverflowLineIsOverflow | backend/gpt_analyzer.py:229 | the overflow line starts as one |
| GptAnalyzer.FormatGeneratedTests | backend/gpt_analyzer.py:203-231 | the loop builds the joined listing; the result is "No tests generated" exactly when there are no tests |
| GptAnalyzer.FormattedTests | backend/gpt_analyzer.py:203-231 | what `_format_generated_tests` returns: "No tests generated" without tests, otherwise the blocks joined by newlines; its shape is `FormattedEntriesShape` and `JoinNotNoTests` |
| GptAnalyzer.JoinNotNoTests | backend/gpt_analyzer.py:221-231 | a non-empty listing never equals "No tests generated" |
| GptAnalyzer.TallyMeaning | backend/gpt_analyzer.py:88-109 | passed and failed are the leftmost match's number (0 without a match), the total is their sum, and all three are 0 without test results |
| GptAnalyzer.TallyOf | backend/gpt_analyzer.py:88-109 | the three counts as a function of the test results; what they mean is `TallyMeaning` |
| GptAnalyzer.CountTests | backend/gpt_analyzer.py:88-109 | the counting block computes that tally, with total = passed + failed |
| GptAnalyzer.BuildAnalysisPrompt | backend/gpt_analyzer.py:84-134 | the prompt's pieces: a description of at most 500 characters, at most 10 file names, total = passed + failed |
| GptAnalyzer.AnalysisFrom | backend/gpt_analyzer.py:45-73 | the parsed answer on success; on failure risk 50, confidence 0, a reasoning that contains the error, and no other keys |
| GptAnalyzer.AnalyzePr | backend/gpt_analyzer.py:26-73 | `analyze_pr` is the success/fallback split on the GPT call made with this PR's prompt |
| Jobs.ValidateAnalyze | server.py:153-166 | accepted iff the five strings are truthy and the PR list is non-empty; each 400 answer holds exactly in its case; an accepted input carries the request's values |
| Jobs.JobRecord.constructor | server.py:172-177 | a new record: started, progress 0, "Analysis started", the start time |
| Jobs.JobRecord.SetStatus | server.py:231 | a legal status change is logged; nothing else changes |
| Jobs.JobRecord.SetProgress | server.py:233 | a progress value in 0..100 is logged; nothing else changes |
| Jobs.JobRecord.SetMessage | server.py:232 | only the message changes |
| Jobs.JobRecord.SetResultsFile | server.py:399 | only the results file changes |
| Jobs.JobStore.Analyze | server.py:150-191 | a refused request creates no job; an accepted one registers a fresh started record under `owner_repo_time` and touches no other job |
| Jobs.JobStore.GetStatus | server.py:194-201 | not found for an unknown id, otherwise the record's fields |
| Jobs.JobStore.GetResults | server.py:204-217 | a report exactly for a known, completed job whose file exists; 404, 400 and 404 in the other cases |
| TestPrs.RequestAllFacts | server.py:252-281 | requested + skipped <= number of PRs; a trigger is posted exactly on PRs with neither a test PR nor a request, once each for distinct PRs; the map holds exactly the test PRs found, with their numbers |
| TestPrs.RequestOneFacts | server.py:256-281 | one turn of the request loop: the PR is counted at most once, a comment is posted on it exactly when it needs one, and its test PR is recorded exactly when one was found |
| TestPrs.RequestAll | server.py:256-281 | the request loop as a function of the PRs, in order; what it achieves is `RequestAllFacts` |
| TestPrs.RequestTests | server.py:252-281 | the request loop computes `RequestAll` |
| TestPrs.ScanStepFacts | server.py:300-306 | one query: only an unmapped PR is queried, and it is added exactly when its test PR was found |
| TestPrs.ScanRoundRaises | server.py:299-303 | a poll pass raises exactly when the query of an unmapped PR raises |
| TestPrs.ScanRoundFacts | server.py:298-306 | a pass queries exactly the unmapped PRs, adds exactly the found ones, keeps earlier entries, and reports all ready exactly when every PR is mapped |
| TestPrs.ScanPass | server.py:298-306 | the inner loop computes `ScanRound` and stops at the first error |
| TestPrs.ScanRaisedExtends | server.py:299-306 | once a prefix of the pass raises, the whole pass raises with that error |
| TestPrs.CardOfElements | server.py:308 | a list has at most as many distinct numbers as entries, and exactly as many iff none repeats |
| TestPrs.DistinctSnoc | server.py:308 | appending a new number keeps a list distinct |
| TestPrs.BreakIffAllMapped | server.py:308-309 | the `break` fires iff the PR numbers are distinct and all are mapped |
| TestPrs.PollFromFacts | server.py:297-314 | the map only grows, with PRs of the list and found test PRs; at most `pollRounds` rounds; an early stop only by the `break`, which leaves all PRs mapped and distinct |
| TestPrs.PollFromFound | server.py:297-306 | every entry the poll loop adds was found by a query of one of its rounds |
| TestPrs.PollFrom | server.py:297-314 | the poll loop from a round on, as a function of the map; what it achieves is `PollFromFacts` |
| TestPrs.PollWithinBudget | server.py:293-297 | with a consistent clock, between 1 and 15 rounds start |
| TestPrs.AllFoundUpFront | server.py:297-309 | when the request phase mapped every (distinct) PR, the first round breaks at once and changes nothing |
| TestPrs.PollTestPrs | server.py:293-314 | the poll loop computes `PollFrom`, leaves status and progress unchanged, and leaves the message of its last sleep |
| PrEntries.ApplyReviewUpdates | server.py:374-377 | same length; a review is patched key by key exactly when its name is a key of the updates; the others are unchanged |
| PrEntries.Merged | server.py:365-377 | the keys taken from the analysis: risk, categories and specific risks when present, and the review patches; stated by `EntryFacts` and `ApplyReviewUpdates` |
| PrEntries.EntryOf | server.py:333-389 | every entry carries a risk |
| PrEntries.EntryFacts | server.py:333-389 | a failed PR gets its id, "PR #n", link, error and risk 0; a processed PR keeps the processor's identity, confidence and error; the test run and its tests are stored exactly for PRs with a test PR; review count kept; the prompt counts that run; a failed GPT call stores risk 50; a returned analysis gives its risk (0 when absent) and replaces the categories and specific risks exactly when it has them |
| PrEntries.ProcessPr | server.py:333-389 | the `try` block computes `EntryOf`, touching only the job's message |
| Pipeline.ProgressAsWrittenStaysLow | server.py:328-330 | as written, the per-PR progress stays between 30 and 45 |
| Pipeline.ProgressAsWrittenExample | server.py:330 | as written, four PRs announce the last at 41, where 75 is intended |
| Pipeline.ProgressAsWrittenMonotone | server.py:327-330 | as written, the per-PR progress never decreases with the PR index |
| Pipeline.ProgressAsWritten | server.py:330 | the per-PR progress as written, `30 + floor(60 * idx / total^2)`; bounded by `ProgressAsWrittenStaysLow` |
| Pipeline.Progress | server.py:330 | the evidently intended per-PR progress, `30 + floor(60 * idx / total)`; bounded by `ProgressBounds` |
| Pipeline.ProgressBounds | server.py:328-330 | the intended progress starts at 30 and stays in 30..89 |
| Pipeline.ProgressMonotone | server.py:327-330 | the intended progress never decreases with the PR index |
| Pipeline.SuccessProgressIncreases | server.py:233-397 | a successful run's progress 0, 5, 10, 20, the as-written per-PR values (each in 30..45), 100 never decreases and stays in 0..100 |
| Pipeline.FinishedReport | server.py:320-389 | one entry per selected PR, in order: entry i is `EntryOf` of the i-th PR, each with a risk; a failed PR's entry names it; only selected PRs whose test PR a query found are mapped |
| Pipeline.StatusesLegal | server.py:230-405 | every run's statuses follow the legal steps and end terminal: completed exactly when it finished |
| Pipeline.RunAnalysis | server.py:228-405 | the record passes through the outcome's statuses and progress values, the per-PR ones as written; it ends completed at 100 with the report saved, or in error at 0 with the error and nothing saved |
| Pipeline.OutcomeOf | server.py:228-405 | the outcome of a run as a function of the input and the environment; what it promises is `StatusesLegal`, `SuccessProgressIncreases` and `FinishedReport` |
| Pipeline.RunWithClients | server.py:247-405 | after set-up: a poll error ends in error, otherwise step 3 runs |
| Pipeline.FinishRun | server.py:319-405 | step 3 and the save: completed with the report stored, or in error when the save fails |
| Pipeline.FindTestPrs | server.py:247-317 | steps 1 and 2 compute the test-PR map and log requesting_tests,10 then waiting_for_tests,20 |
| Pipeline.ProcessAll | server.py:326-389 | the per-PR loop yields `Entries` and logs the as-written progress value of each PR, in order |
| Pipeline.ProcessNth | server.py:327-389 | one turn: its as-written progress value, its message, its entry |
| Pipeline.Complete | server.py:391-399 | the report is stored under the results file; the record is completed at 100 |
| Pipeline.Fail | server.py:401-405 | the record goes to error with the error message and progress 0 |

## Left out

- Flask routing, static files, `jsonify` and the HTTP status codes are not modelled. The endpoints are modelled as their decisions (reply datatypes).
- `get_repos` (server.py:64-99) is not modelled: it is a pass-through to the GitHub client.
- The background thread and concurrent access to `analysis_jobs` are not modelled. Each record has one owner, and `RunAnalysis` runs to its end.
- Wall-clock time and `time.sleep` are not modelled. The deadline is `pollRounds`, and `ClockConsistent` states the 15-round bound. One integer `now` stands for both clock readings of `analyze`: the source puts `int(time.time())` in the job id and a later, fractional `time.time()` in `started_at`. `processedAt` is a field of `Env`.
- The GitHub, Daytona, OpenAI and `PRProcessor` calls are oracles. They are stateless: the same arguments give the same answer. `pr_processor.py` and `test_runner.py` are not part of this model.
- Logging is not modelled.
- The message wording is not modelled. Messages are a datatype that keeps their parameters.
- Pipeline.ProgressAsWritten: float division is modelled as exact rational arithmetic with truncation.
- File I/O: a failed write is modelled as writing nothing, not as a partly written file. Reading the results file, and its 500 answer, is not modelled: the stored report is returned.
- `json.loads` is not modelled. The GPT oracle returns an analysis dictionary or raises. An answer that is not a dictionary is not modelled.
- A key that is present with the value `null` is not modelled; for example, a PR body of `null` makes the `[:500]` slice raise. Keys are present with a value or absent.
- Lower-casing is modelled for ASCII only; `\s` is Python's full whitespace set.
- TestCounts.DigitRunEnd: `\d` is modelled as the ASCII digits; Python's `re` also matches other Unicode decimal digits.
- GptAnalyzer.BuildAnalysisPrompt: the fixed prompt text is not modelled, and neither are the review JSON or the exit code and output lines. What is modelled is the pieces the prompt is computed from.
- The API-key lookup of `GPTAnalyzer` and the client constructors are a single `initError`.
- A job started for the same owner and repository in the same second replaces the earlier record, as the source does. No property beyond that is claimed.
- Duplicate PR numbers are modelled as written. With a repeated number the map has fewer keys than the list has entries, so the poll loop never breaks early (`BreakIffAllMapped`).

## Findings

| source | as written | input that shows it | evidently intended | confidence | as-written member | corrected member |
|---|---|---|---|---|---|---|
| server.py:330 | `30 + int((idx / total_prs) * (60 / total_prs))` divides by the number of PRs twice, so progress never passes 45 | 4 PRs, idx 3: 30 + int(0.75 * 15) = 41 | `30 + int(60 * idx / total_prs)`, spreading the PRs over 30..90 (75 here) | not executed | Pipeline.ProgressAsWrittenExample, Pipeline.ProgressAsWrittenStaysLow (the run, `ProcessNth` and `PerPrProgress`, logs these values) | Pipeline.Progress, with Pipeline.ProgressBounds and Pipeline.ProgressMonotone |
