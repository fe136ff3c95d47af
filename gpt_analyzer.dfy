/** The deterministic parts of `GPTAnalyzer`: the code-type classifier, the
    formatter of generated tests, the pass/fail counts read from a test run,
    the computed pieces of the prompt and the fallback result of `analyze_pr`.
    The OpenAI call itself is a parameter `gpt` that returns an analysis or
    raises. */
module GptAnalyzer {
  import opened Text
  import opened Records
  import TestCounts

  // ------------------------------------------------------------ code type

  datatype CodeType = Authentication | Database | Api | Payment | General {
    /** The string `_analyze_code_type` returns. */
    function Name(): string {
      match this
      case Authentication => "authentication"
      case Database => "database"
      case Api => "api"
      case Payment => "payment"
      case General => "general"
    }
  }

  const AuthKeywords: seq<string> := ["auth", "login", "token", "password", "session"]
  const DatabaseKeywords: seq<string> := ["db", "database", "sql", "query", "model"]
  const ApiKeywords: seq<string> := ["api", "endpoint", "route", "handler"]
  const PaymentKeywords: seq<string> := ["payment", "stripe", "paypal", "billing"]

  function FileNames(files: CodeFiles): (r: seq<string>)
    ensures |r| == |files|
    ensures forall i :: 0 <= i < |files| ==> r[i] == files[i].0
  {
    if files == [] then [] else [files[0].0] + FileNames(files[1..])
  }

  function FileContents(files: CodeFiles): (r: seq<string>)
    ensures |r| == |files|
    ensures forall i :: 0 <= i < |files| ==> r[i] == files[i].1
  {
    if files == [] then [] else [files[0].1] + FileContents(files[1..])
  }

  function Prefix<T>(s: seq<T>, n: nat): seq<T> {
    if |s| <= n then s else s[..n]
  }

  /** `combined` in `_analyze_code_type`: the joined file names, a space, and
      the joined contents of the first three files, all lower-cased. */
  function CombinedText(files: CodeFiles): string {
    var fileNames := Lower(Join(' ', FileNames(files)));
    var contentSample := if |files| > 0 then Lower(Join(' ', Prefix(FileContents(files), 3))) else "";
    fileNames + " " + contentSample
  }

  predicate MentionsAny(text: string, keywords: seq<string>) {
    exists k | 0 <= k < |keywords| :: Contains(text, keywords[k])
  }

  /** `_analyze_code_type`: the first keyword group, in priority order, that
      occurs in the combined text. */
  function AnalyzeCodeType(files: CodeFiles): (r: CodeType)
    ensures files == [] ==> r == General
  {
    var combined := CombinedText(files);
    CodeTypeOf(MentionsAny(combined, AuthKeywords), MentionsAny(combined, DatabaseKeywords),
               MentionsAny(combined, ApiKeywords), MentionsAny(combined, PaymentKeywords))
  }

  /** The first group that occurs, in the order of the `if` chain. */
  function CodeTypeOf(auth: bool, db: bool, api: bool, pay: bool): CodeType {
    if auth then Authentication
    else if db then Database
    else if api then Api
    else if pay then Payment
    else General
  }

  /** The texts the classifier looks at: every file name and the contents of
      at most the first three files. */
  function InspectedTexts(files: CodeFiles): seq<string> {
    FileNames(files) + Prefix(FileContents(files), 3)
  }

  /** Some keyword occurs, ignoring ASCII case, in one of the inspected texts. */
  predicate FilesMention(files: CodeFiles, keywords: seq<string>) {
    exists p, k | p in InspectedTexts(files) && 0 <= k < |keywords| :: Contains(Lower(p), keywords[k])
  }

  predicate PlainKeywords(keywords: seq<string>) {
    forall k :: 0 <= k < |keywords| ==> |keywords[k]| > 0 && ' ' !in keywords[k]
  }

  lemma {:induction false} ContainsInLoweredJoin(parts: seq<string>, w: string)
    requires |w| > 0 && ' ' !in w
    ensures Contains(Lower(Join(' ', parts)), w) <==> exists p :: p in parts && Contains(Lower(p), w)
  {
    LowerJoin(' ', parts);
    ContainsInJoin(' ', LowerAll(parts), w);
    if exists p :: p in parts && Contains(Lower(p), w) {
      var p :| p in parts && Contains(Lower(p), w);
      var i :| 0 <= i < |parts| && parts[i] == p;
      assert LowerAll(parts)[i] == Lower(p);
    }
  }

  /** The separators the classifier inserts cannot create or hide a keyword:
      the combined text mentions a keyword exactly when one inspected text does. */
  lemma {:induction false} CombinedMentions(files: CodeFiles, keywords: seq<string>)
    requires PlainKeywords(keywords)
    ensures MentionsAny(CombinedText(files), keywords) <==> FilesMention(files, keywords)
  {
    var names := FileNames(files);
    var sample := Prefix(FileContents(files), 3);
    assert files == [] ==> sample == [];
    assert Lower(Join(' ', sample)) == (if |files| > 0 then Lower(Join(' ', sample)) else "");
    forall k | 0 <= k < |keywords|
      ensures Contains(CombinedText(files), keywords[k]) <==>
        exists p :: p in InspectedTexts(files) && Contains(Lower(p), keywords[k])
    {
      var w := keywords[k];
      ContainsAcrossSeparator(Lower(Join(' ', names)), ' ', Lower(Join(' ', sample)), w);
      ContainsInLoweredJoin(names, w);
      ContainsInLoweredJoin(sample, w);
    }
  }

  /** `_analyze_code_type` by what the files say: a code type is chosen
      exactly when its keywords occur in a file name or one of the first
      three contents and no keyword group of higher priority does. */
  lemma CodeTypeByFiles(files: CodeFiles)
    ensures AnalyzeCodeType(files) == Authentication <==> FilesMention(files, AuthKeywords)
    ensures AnalyzeCodeType(files) == Database <==>
      !FilesMention(files, AuthKeywords) && FilesMention(files, DatabaseKeywords)
    ensures AnalyzeCodeType(files) == Api <==>
      !FilesMention(files, AuthKeywords) && !FilesMention(files, DatabaseKeywords) &&
      FilesMention(files, ApiKeywords)
    ensures AnalyzeCodeType(files) == Payment <==>
      !FilesMention(files, AuthKeywords) && !FilesMention(files, DatabaseKeywords) &&
      !FilesMention(files, ApiKeywords) && FilesMention(files, PaymentKeywords)
    ensures AnalyzeCodeType(files) == General <==>
      !FilesMention(files, AuthKeywords) && !FilesMention(files, DatabaseKeywords) &&
      !FilesMention(files, ApiKeywords) && !FilesMention(files, PaymentKeywords)
  {
    KeywordsArePlain();
    CombinedMentions(files, AuthKeywords);
    CombinedMentions(files, DatabaseKeywords);
    CombinedMentions(files, ApiKeywords);
    CombinedMentions(files, PaymentKeywords);
    var auth, db := FilesMention(files, AuthKeywords), FilesMention(files, DatabaseKeywords);
    var api, pay := FilesMention(files, ApiKeywords), FilesMention(files, PaymentKeywords);
    assert AnalyzeCodeType(files) == CodeTypeOf(auth, db, api, pay);
    PriorityOrder(auth, db, api, pay);
  }

  /** No keyword is empty or holds a space. */
  lemma KeywordsArePlain()
    ensures PlainKeywords(AuthKeywords) && PlainKeywords(DatabaseKeywords)
    ensures PlainKeywords(ApiKeywords) && PlainKeywords(PaymentKeywords)
  {
  }

  /** The priority order of the keyword groups, on whether each occurs. */
  lemma PriorityOrder(auth: bool, db: bool, api: bool, pay: bool)
    ensures CodeTypeOf(auth, db, api, pay) == Authentication <==> auth
    ensures CodeTypeOf(auth, db, api, pay) == Database <==> !auth && db
    ensures CodeTypeOf(auth, db, api, pay) == Api <==> !auth && !db && api
    ensures CodeTypeOf(auth, db, api, pay) == Payment <==> !auth && !db && !api && pay
    ensures CodeTypeOf(auth, db, api, pay) == General <==> !auth && !db && !api && !pay
  {
  }

  // ------------------------------------------------- generated-test listing

  /** At most this many generated tests are written out in the prompt. */
  const MaxShownTests: nat := 10

  const NoTestsText: string := "No tests generated"

  function TestNameOf(t: GeneratedTest): string { t.test.GetOr("Unknown Test") }
  function TestCodeOf(t: GeneratedTest): string { t.code.GetOr("") }
  function TestReasonOf(t: GeneratedTest): string { t.reason.GetOr("Generated by Coderabbit") }

  /** The block written for the `number`-th test shown. */
  function TestBlock(number: nat, t: GeneratedTest): string {
    "\nTest " + NatToString(number) + ": " + TestNameOf(t) +
    "\nReason: " + TestReasonOf(t) +
    "\nCode:\n" + TestCodeOf(t) + "\n---"
  }

  /** The line that stands for the `hidden` tests not written out. */
  function OverflowLine(hidden: nat): string {
    "\n... and " + NatToString(hidden) + " more test(s)"
  }

  /** The blocks of `tests`, numbered from `first`. */
  function Blocks(tests: seq<GeneratedTest>, first: nat): seq<string> {
    if tests == [] then [] else [TestBlock(first, tests[0])] + Blocks(tests[1..], first + 1)
  }

  lemma {:induction false} BlocksAt(tests: seq<GeneratedTest>, first: nat)
    ensures |Blocks(tests, first)| == |tests|
    ensures forall i :: 0 <= i < |tests| ==> Blocks(tests, first)[i] == TestBlock(first + i, tests[i])
  {
    if tests != [] {
      BlocksAt(tests[1..], first + 1);
    }
  }

  /** The list `formatted` that `_format_generated_tests` joins. */
  function FormattedEntries(tests: seq<GeneratedTest>): seq<string> {
    Blocks(Prefix(tests, MaxShownTests), 1) +
    (if |tests| > MaxShownTests then [OverflowLine(|tests| - MaxShownTests)] else [])
  }

  /** The `generatedTests` list of the test results, `[]` when there are none. */
  function GeneratedTestsOf(tr: Option<TestResults>): seq<GeneratedTest> {
    if Present(tr) then tr.value.generatedTests.GetOr([]) else []
  }

  /** What `_format_generated_tests` returns. */
  function FormattedTests(tr: Option<TestResults>): string {
    var tests := GeneratedTestsOf(tr);
    if tests == [] then NoTestsText else Join('\n', FormattedEntries(tests))
  }

  predicate IsOverflowLine(line: string) {
    |line| >= 5 && line[..5] == "\n... "
  }

  /** The listing has one block per shown test, numbered 1, 2, ... in input
      order, for min(n, 10) tests; the overflow line is added exactly when
      there are more than ten tests, after the blocks, and counts the rest. */
  lemma FormattedEntriesShape(tests: seq<GeneratedTest>)
    ensures var entries := FormattedEntries(tests);
      var shown := if |tests| < MaxShownTests then |tests| else MaxShownTests;
      && |entries| == shown + (if |tests| > MaxShownTests then 1 else 0)
      && (forall i :: 0 <= i < shown ==> entries[i] == TestBlock(i + 1, tests[i]))
      && (forall i :: 0 <= i < |entries| ==> (IsOverflowLine(entries[i]) <==> i == MaxShownTests))
      && (|tests| > MaxShownTests ==> entries[MaxShownTests] == OverflowLine(|tests| - MaxShownTests))
  {
    var shownTests := Prefix(tests, MaxShownTests);
    BlocksAt(shownTests, 1);
    var entries := FormattedEntries(tests);
    forall i | 0 <= i < |shownTests| ensures !IsOverflowLine(entries[i]) {
      assert entries[i] == Blocks(shownTests, 1)[i];
      BlockIsNoOverflow(i + 1, shownTests[i]);
    }
    if |tests| > MaxShownTests {
      OverflowLineIsOverflow(|tests| - MaxShownTests);
    }
  }

  lemma BlockIsNoOverflow(number: nat, t: GeneratedTest)
    ensures !IsOverflowLine(TestBlock(number, t))
  {
    assert TestBlock(number, t)[1] == 'T';
  }

  lemma OverflowLineIsOverflow(hidden: nat)
    ensures IsOverflowLine(OverflowLine(hidden))
  {
    assert OverflowLine(hidden)[..5] == "\n... ";
  }

  /** `_format_generated_tests`, building the list in a loop as the source does. */
  method FormatGeneratedTests(tr: Option<TestResults>) returns (text: string)
    ensures text == FormattedTests(tr)
    ensures GeneratedTestsOf(tr) == [] <==> text == NoTestsText
  {
    if !Present(tr) {
      return NoTestsText;
    }
    var generated := tr.value.generatedTests.GetOr([]);
    if generated == [] {
      return NoTestsText;
    }
    var shown := Prefix(generated, MaxShownTests);
    BlocksAt(shown, 1);
    var formatted: seq<string> := [];
    var i := 0;
    while i < |shown|
      invariant 0 <= i <= |shown|
      invariant formatted == Blocks(shown, 1)[..i]
    {
      formatted := formatted + [TestBlock(i + 1, shown[i])];
      i := i + 1;
    }
    assert formatted == Blocks(shown, 1);
    if |generated| > MaxShownTests {
      formatted := formatted + [OverflowLine(|generated| - MaxShownTests)];
    }
    text := Join('\n', formatted);
    assert formatted == FormattedEntries(generated);
    assert GeneratedTestsOf(tr) == generated;
    assert |formatted| > 0;
    JoinNotNoTests(formatted);
  }

  /** A non-empty listing never reads as the "No tests generated" text: its
      first block starts with a newline. */
  lemma JoinNotNoTests(entries: seq<string>)
    requires |entries| > 0 && |entries[0]| > 0 && entries[0][0] == '\n'
    ensures Join('\n', entries) != NoTestsText
  {
    if |entries| > 1 {
      assert Join('\n', entries)[0] == entries[0][0];
    }
  }

  // ------------------------------------------------------------ test counts

  /** The counts put in the prompt: total, passed, failed. */
  datatype TestTally = TestTally(total: nat, passed: nat, failed: nat)

  function OutputOf(tr: Option<TestResults>): string
    requires tr.Some?
  {
    tr.value.output.GetOr("")
  }

  /** The counts, as a function of the test results. */
  function TallyOf(tr: Option<TestResults>): TestTally {
    if !Present(tr) then TestTally(0, 0, 0)
    else
      var passed := TestCounts.CountBefore(OutputOf(tr), "passed").GetOr(0);
      var failed := TestCounts.CountBefore(OutputOf(tr), "failed").GetOr(0);
      TestTally(passed + failed, passed, failed)
  }

  /** The counts read from a test run: each is the number of the leftmost
      `digits whitespace word` match (0 without one) and the total is their
      sum; without test results all three are 0. */
  lemma TallyMeaning(tr: Option<TestResults>)
    ensures TallyOf(tr).total == TallyOf(tr).passed + TallyOf(tr).failed
    ensures !Present(tr) ==> TallyOf(tr) == TestTally(0, 0, 0)
    ensures Present(tr) ==>
      && (TestCounts.NoMatch(OutputOf(tr), "passed") ==> TallyOf(tr).passed == 0)
      && (!TestCounts.NoMatch(OutputOf(tr), "passed") ==>
            TestCounts.LeftmostCount(OutputOf(tr), "passed", TallyOf(tr).passed))
      && (TestCounts.NoMatch(OutputOf(tr), "failed") ==> TallyOf(tr).failed == 0)
      && (!TestCounts.NoMatch(OutputOf(tr), "failed") ==>
            TestCounts.LeftmostCount(OutputOf(tr), "failed", TallyOf(tr).failed))
  {
    if Present(tr) {
      TestCounts.CountBeforeIsLeftmostMatch(OutputOf(tr), "passed");
      TestCounts.CountBeforeIsLeftmostMatch(OutputOf(tr), "failed");
    }
  }

  /** The counting block of `_build_analysis_prompt`, updating the three
      counters in sequence. */
  method CountTests(tr: Option<TestResults>) returns (total: nat, passed: nat, failed: nat)
    ensures TestTally(total, passed, failed) == TallyOf(tr)
    ensures total == passed + failed
  {
    total, passed, failed := 0, 0, 0;
    if Present(tr) {
      var output := tr.value.output.GetOr("");
      TestCounts.CountImpliesContains(output, "passed");
      TestCounts.CountImpliesContains(output, "failed");
      if Contains(output, "passed") {
        var found := TestCounts.CountBefore(output, "passed");
        if found.Some? {
          passed := found.value;
          total := total + passed;
        }
      }
      if Contains(output, "failed") {
        var found := TestCounts.CountBefore(output, "failed");
        if found.Some? {
          failed := found.value;
          total := total + failed;
        }
      }
      total := passed + failed;
    }
  }

  // ----------------------------------------------------------------- prompt

  /** What the prompt of `_build_analysis_prompt` is computed from; its fixed
      wording is not modelled. */
  datatype PromptFacts = PromptFacts(
    title: string,
    description: string,
    codeType: CodeType,
    reviewCount: nat,
    generatedTests: string,
    testStatus: string,
    tally: TestTally,
    fileCount: nat,
    fileNamesShown: seq<string>)

  /** The description is cut to its first 500 characters. */
  const MaxDescription: nat := 500

  /** At most this many file names are listed. */
  const MaxListedFiles: nat := 10

  function PromptFactsOf(info: PrInfo, reviews: seq<Review>, tr: Option<TestResults>,
                         files: CodeFiles): PromptFacts
  {
    PromptFacts(
      info.title.GetOr("N/A"),
      Prefix(info.body.GetOr("N/A"), MaxDescription),
      AnalyzeCodeType(files),
      |reviews|,
      FormattedTests(tr),
      if Present(tr) then tr.value.status.GetOr("unknown") else "no_tests",
      TallyOf(tr),
      |files|,
      Prefix(FileNames(files), MaxListedFiles))
  }

  /** `_build_analysis_prompt`, as the pieces it computes. */
  method BuildAnalysisPrompt(info: PrInfo, reviews: seq<Review>, tr: Option<TestResults>,
                             files: CodeFiles) returns (facts: PromptFacts)
    ensures facts == PromptFactsOf(info, reviews, tr, files)
    ensures facts.tally.total == facts.tally.passed + facts.tally.failed
    ensures |facts.description| <= MaxDescription && |facts.fileNamesShown| <= MaxListedFiles
  {
    var codeType := AnalyzeCodeType(files);
    var total, passed, failed := CountTests(tr);
    var listing := FormatGeneratedTests(tr);
    var status := if Present(tr) then tr.value.status.GetOr("unknown") else "no_tests";
    facts := PromptFacts(
      info.title.GetOr("N/A"), Prefix(info.body.GetOr("N/A"), MaxDescription), codeType,
      |reviews|, listing, status, TestTally(total, passed, failed), |files|,
      Prefix(FileNames(files), MaxListedFiles));
  }

  // ------------------------------------------------------------- analyze_pr

  const FallbackRisk: int := 50
  const FallbackConfidence: int := 0

  /** The dictionary `analyze_pr` returns when the GPT call or the parsing of
      its answer raised. */
  function FallbackAnalysis(error: string): Analysis {
    Analysis(Some(FallbackRisk), Some(FallbackConfidence),
             Some("Error in GPT analysis: " + error), None, None, None)
  }

  /** The result of `analyze_pr` once the prompt is known. */
  function AnalysisFrom(reply: Reply<Analysis>): (a: Analysis)
    ensures reply.Returned? ==> a == reply.value
    ensures reply.Raised? ==> a.risk == Some(50) && a.confidence == Some(0)
    ensures reply.Raised? ==> a.reasoning.Some? && Contains(a.reasoning.value, reply.message)
    ensures reply.Raised? ==> a.riskCategories.None? && a.specificRisks.None? && a.reviewUpdates.None?
  {
    match reply
    case Returned(analysis) => analysis
    case Raised(e) =>
      var reasoning := "Error in GPT analysis: " + e;
      assert OccursAt(reasoning, e, |reasoning| - |e|);
      FallbackAnalysis(e)
  }

  /** `analyze_pr`: build the prompt, ask GPT, fall back on failure. */
  method AnalyzePr(info: PrInfo, reviews: seq<Review>, tr: Option<TestResults>, files: CodeFiles,
                   gpt: PromptFacts -> Reply<Analysis>) returns (analysis: Analysis)
    ensures analysis == AnalysisFrom(gpt(PromptFactsOf(info, reviews, tr, files)))
  {
    var prompt := BuildAnalysisPrompt(info, reviews, tr, files);
    var reply := gpt(prompt);
    analysis := AnalysisFrom(reply);
  }
}
