/** Steps 1 and 2 of the analysis: ask Coderabbit for unit tests on every
    selected PR that has neither a test PR nor a pending request, then poll
    until every PR has a test PR or the rounds run out. The result is the map
    `test_prs` from a PR number to the number of its test PR. */
module TestPrs {
  import opened Text
  import opened Environment
  import opened Jobs

  predicate Distinct(s: seq<int>) {
    forall i, j :: 0 <= i < j < |s| ==> s[i] != s[j]
  }

  // -------------------------------------------------------- request phase

  /** The loop variables of step 1, together with the PRs a request comment
      was posted on. */
  datatype RequestTally = RequestTally(testPrs: map<int, int>, requested: nat, skipped: nat, triggered: seq<int>)

  /** Neither a test PR nor an earlier request was found, so a comment asking
      for tests is posted. */
  predicate NeedsRequest(env: Env, pr: int) {
    env.findTestPr(pr, 0) == Returned(None) && env.hasTestRequest(pr) == Returned(false)
  }

  /** One iteration of the request loop; an error skips the PR. */
  function RequestOne(t: RequestTally, pr: int, env: Env): RequestTally {
    match env.findTestPr(pr, 0)
    case Raised(_) => t
    case Returned(Some(n)) => t.(testPrs := t.testPrs[pr := n], skipped := t.skipped + 1)
    case Returned(None) =>
      match env.hasTestRequest(pr)
      case Raised(_) => t
      case Returned(true) => t.(skipped := t.skipped + 1)
      case Returned(false) =>
        var posted := t.(triggered := t.triggered + [pr]);
        match env.triggerTests(pr)
        case Raised(_) => posted
        case Returned(true) => posted.(requested := posted.requested + 1)
        case Returned(false) => posted.(skipped := posted.skipped + 1)
  }

  /** The request loop over `prs`, in order. */
  function RequestAll(prs: seq<int>, env: Env): RequestTally {
    if prs == [] then RequestTally(map[], 0, 0, [])
    else RequestOne(RequestAll(prs[..|prs| - 1], env), prs[|prs| - 1], env)
  }

  /** What step 1 achieves: each PR is counted at most once; a comment is
      posted exactly on the PRs that need one, and on each at most once when
      the PRs are distinct; the test PRs found are recorded with their
      numbers, and nothing else is. */
  lemma {:induction false} RequestAllFacts(prs: seq<int>, env: Env)
    ensures var t := RequestAll(prs, env);
      && t.requested + t.skipped <= |prs|
      && t.requested <= |t.triggered| <= |prs|
      && (forall x :: x in t.triggered <==> x in prs && NeedsRequest(env, x))
      && (Distinct(prs) ==> Distinct(t.triggered))
      && (forall x :: x in t.testPrs <==> x in prs && FoundAt(env, x, 0))
      && (forall x :: x in t.testPrs ==> t.testPrs[x] == env.findTestPr(x, 0).value.value)
  {
    if prs != [] {
      var init := prs[..|prs| - 1];
      var x := prs[|prs| - 1];
      assert prs == init + [x];
      RequestAllFacts(init, env);
      RequestOneFacts(RequestAll(init, env), x, env);
      if Distinct(prs) {
        assert Distinct(init);
        assert x !in init;
      }
    }
  }

  /** One iteration of the request loop: it counts the PR at most once,
      posts a comment on it exactly when it needs one, and records its test
      PR exactly when one was found. */
  lemma RequestOneFacts(t: RequestTally, pr: int, env: Env)
    ensures var u := RequestOne(t, pr, env);
      && u.requested + u.skipped <= t.requested + t.skipped + 1
      && u.requested <= t.requested + |u.triggered| - |t.triggered|
      && u.triggered == (if NeedsRequest(env, pr) then t.triggered + [pr] else t.triggered)
      && (forall x :: x in u.testPrs <==> x in t.testPrs || (x == pr && FoundAt(env, pr, 0)))
      && (forall x :: x in u.testPrs && x != pr ==> u.testPrs[x] == t.testPrs[x])
      && (FoundAt(env, pr, 0) ==> u.testPrs[pr] == env.findTestPr(pr, 0).value.value)
      && (!FoundAt(env, pr, 0) && pr in t.testPrs ==> u.testPrs[pr] == t.testPrs[pr])
  {
  }

  /** The request loop of `run_analysis`. */
  method RequestTests(prs: seq<int>, env: Env) returns (t: RequestTally)
    ensures t == RequestAll(prs, env)
  {
    t := RequestTally(map[], 0, 0, []);
    for i := 0 to |prs|
      invariant t == RequestAll(prs[..i], env)
    {
      assert prs[..i + 1][..i] == prs[..i];
      var pr := prs[i];
      var existing := env.findTestPr(pr, 0);
      if existing.Raised? {
        continue;
      }
      if existing.value.Some? {
        t := t.(testPrs := t.testPrs[pr := existing.value.value], skipped := t.skipped + 1);
        continue;
      }
      var pending := env.hasTestRequest(pr);
      if pending.Raised? {
        continue;
      }
      if pending.value {
        t := t.(skipped := t.skipped + 1);
        continue;
      }
      t := t.(triggered := t.triggered + [pr]);
      var comment := env.triggerTests(pr);
      if comment.Raised? {
        continue;
      }
      if comment.value {
        t := t.(requested := t.requested + 1);
      } else {
        t := t.(skipped := t.skipped + 1);
      }
    }
    assert prs[..|prs|] == prs;
  }

  // ----------------------------------------------------------- poll phase

  /** One pass of the poll loop over the PRs: the map after it, whether every
      query of the pass found a test PR, and the PRs queried. Unlike the
      request loop, an error here ends the whole analysis. */
  datatype Scan = Scan(testPrs: map<int, int>, allReady: bool, queried: seq<int>)

  function ScanStep(s: Scan, pr: int, env: Env, round: nat): Reply<Scan> {
    if pr in s.testPrs then Returned(s)
    else match env.findTestPr(pr, round + 1)
      case Raised(e) => Raised(e)
      case Returned(Some(n)) => Returned(s.(testPrs := s.testPrs[pr := n], queried := s.queried + [pr]))
      case Returned(None) => Returned(s.(allReady := false, queried := s.queried + [pr]))
  }

  /** The `for pr_number in pr_numbers` pass of poll round `round`. */
  function ScanRound(m: map<int, int>, prs: seq<int>, env: Env, round: nat): Reply<Scan> {
    if prs == [] then Returned(Scan(m, true, []))
    else match ScanRound(m, prs[..|prs| - 1], env, round)
      case Raised(e) => Raised(e)
      case Returned(s) => ScanStep(s, prs[|prs| - 1], env, round)
  }

  /** A pass raises exactly when the query of some unmapped PR raises. */
  lemma {:induction false} ScanRoundRaises(m: map<int, int>, prs: seq<int>, env: Env, round: nat)
    ensures ScanRound(m, prs, env, round).Raised? <==>
      exists x :: x in prs && x !in m && env.findTestPr(x, round + 1).Raised?
  {
    if prs != [] {
      var init := prs[..|prs| - 1];
      var x := prs[|prs| - 1];
      assert prs == init + [x];
      ScanRoundRaises(m, init, env, round);
      ScanRoundFacts(m, init, env, round);
      match ScanRound(m, init, env, round)
      case Raised(e) =>
        var y :| y in init && y !in m && env.findTestPr(y, round + 1).Raised?;
        assert y in prs;
      case Returned(s) =>
        if ScanRound(m, prs, env, round).Raised? {
          assert x !in s.testPrs && env.findTestPr(x, round + 1).Raised?;
        }
    }
  }

  /** A pass that does not raise queries exactly the unmapped PRs, adds
      exactly those whose test PR it found, keeps every earlier entry, and
      reports all ready exactly when every PR is mapped afterwards. */
  lemma {:induction false} ScanRoundFacts(m: map<int, int>, prs: seq<int>, env: Env, round: nat)
    ensures ScanRound(m, prs, env, round).Returned? ==>
      var s := ScanRound(m, prs, env, round).value;
      && (forall x :: x in s.queried <==> x in prs && x !in m)
      && (forall x :: x in s.testPrs <==> x in m || (x in prs && FoundAt(env, x, round + 1)))
      && (forall x :: x in m ==> s.testPrs[x] == m[x])
      && (forall x :: x in s.testPrs && x !in m ==> s.testPrs[x] == env.findTestPr(x, round + 1).value.value)
      && (s.allReady <==> forall x :: x in prs ==> x in s.testPrs)
  {
    if prs != [] {
      var init := prs[..|prs| - 1];
      var x := prs[|prs| - 1];
      assert prs == init + [x];
      ScanRoundFacts(m, init, env, round);
      if ScanRound(m, init, env, round).Returned? {
        ScanStepFacts(ScanRound(m, init, env, round).value, x, env, round);
      }
    }
  }

  /** One query of a pass: the PR is queried only when still unmapped, and
      is added exactly when its test PR was found. */
  lemma ScanStepFacts(s: Scan, pr: int, env: Env, round: nat)
    ensures ScanStep(s, pr, env, round).Returned? ==>
      var t := ScanStep(s, pr, env, round).value;
      && (forall x :: x in t.queried <==> x in s.queried || (x == pr && pr !in s.testPrs))
      && (forall x :: x in t.testPrs <==> x in s.testPrs || (x == pr && FoundAt(env, pr, round + 1)))
      && (forall x :: x in s.testPrs ==> t.testPrs[x] == s.testPrs[x])
      && (pr in t.testPrs && pr !in s.testPrs ==> t.testPrs[pr] == env.findTestPr(pr, round + 1).value.value)
      && (t.allReady <==> s.allReady && pr in t.testPrs)
  {
  }

  /** Where the poll loop ended: the map, the number of rounds started, and
      whether it left by the `break` rather than by running out of time. */
  datatype PollOutcome = PollOutcome(testPrs: map<int, int>, rounds: nat, complete: bool)

  /** The `break` condition of the poll loop. */
  predicate BreakAfter(s: Scan, prs: seq<int>) {
    s.allReady && |s.testPrs| == |prs|
  }

  /** The poll loop from round `round` on. */
  function PollFrom(m: map<int, int>, prs: seq<int>, env: Env, round: nat): Reply<PollOutcome>
    decreases env.pollRounds - round
  {
    if round >= env.pollRounds then Returned(PollOutcome(m, round, false))
    else match ScanRound(m, prs, env, round)
      case Raised(e) => Raised(e)
      case Returned(s) =>
        if BreakAfter(s, prs) then Returned(PollOutcome(s.testPrs, round + 1, true))
        else PollFrom(s.testPrs, prs, env, round + 1)
  }

  /** The PR numbers of a list, as a set. */
  function Elements(s: seq<int>): set<int> {
    set x | x in s
  }

  /** A list has at most as many distinct numbers as entries, and exactly
      as many when no number repeats. */
  lemma {:induction false} CardOfElements(s: seq<int>)
    ensures |Elements(s)| <= |s|
    ensures |Elements(s)| == |s| <==> Distinct(s)
  {
    if s != [] {
      var init := s[..|s| - 1];
      var x := s[|s| - 1];
      assert s == init + [x];
      CardOfElements(init);
      assert Elements(s) == Elements(init) + {x};
      if x in init {
        var k :| 0 <= k < |init| && init[k] == x;
        assert s[k] == s[|s| - 1];
      } else {
        DistinctSnoc(init, x);
      }
    }
  }

  /** Appending a number not yet in the list keeps it distinct. */
  lemma DistinctSnoc(init: seq<int>, x: int)
    requires x !in init
    ensures Distinct(init + [x]) <==> Distinct(init)
  {
    var s := init + [x];
    if Distinct(init) {
      forall i, j | 0 <= i < j < |s| ensures s[i] != s[j] {
        if j == |s| - 1 { assert s[i] == init[i]; }
      }
    } else {
      var i, j :| 0 <= i < j < |init| && init[i] == init[j];
      assert s[i] == s[j];
    }
  }

  /** With every key among the PRs, the `break` fires exactly when the PR
      numbers are distinct and every one of them is mapped: with a repeated
      PR number the map has fewer keys than the list has entries. */
  lemma BreakIffAllMapped(s: Scan, prs: seq<int>)
    requires forall x :: x in s.testPrs ==> x in prs
    requires s.allReady <==> forall x :: x in prs ==> x in s.testPrs
    ensures BreakAfter(s, prs) <==> Distinct(prs) && forall x :: x in prs ==> x in s.testPrs
  {
    CardOfElements(prs);
    var elems := Elements(prs);
    forall x | x in s.testPrs.Keys ensures x in elems { }
    if forall x :: x in prs ==> x in s.testPrs {
      assert s.testPrs.Keys == elems;
    }
    if BreakAfter(s, prs) {
      assert |s.testPrs.Keys| == |s.testPrs|;
    }
  }

  /** What step 2 achieves: the map only grows and only with PRs of the
      list, each new entry found by a poll query; the loop starts at most
      `pollRounds` rounds and stops early only by the `break`, which leaves
      every PR mapped; with a repeated PR number the `break` never fires. */
  lemma {:induction false} PollFromFacts(m: map<int, int>, prs: seq<int>, env: Env, round: nat)
    requires round <= env.pollRounds
    requires forall x :: x in m ==> x in prs
    ensures PollFrom(m, prs, env, round).Returned? ==>
      var o := PollFrom(m, prs, env, round).value;
      && (forall x :: x in m ==> x in o.testPrs && o.testPrs[x] == m[x])
      && (forall x :: x in o.testPrs ==> x in prs)
      && round <= o.rounds <= env.pollRounds
      && (!o.complete ==> o.rounds == env.pollRounds)
      && (o.complete ==> round < o.rounds && Distinct(prs) && forall x :: x in prs ==> x in o.testPrs)
      && (forall x :: x in o.testPrs && x !in m ==> exists c :: round < c <= env.pollRounds && FoundAt(env, x, c))
    decreases env.pollRounds - round
  {
    PollFromFound(m, prs, env, round);
    if round < env.pollRounds {
      ScanRoundRaises(m, prs, env, round);
      ScanRoundFacts(m, prs, env, round);
      match ScanRound(m, prs, env, round)
      case Raised(e) =>
      case Returned(s) =>
        BreakIffAllMapped(s, prs);
        if !BreakAfter(s, prs) {
          PollFromFacts(s.testPrs, prs, env, round + 1);
        }
    }
  }

  /** Every entry the poll loop adds to the map was found by a query of
      one of the rounds it ran. */
  lemma {:induction false} PollFromFound(m: map<int, int>, prs: seq<int>, env: Env, round: nat)
    requires round <= env.pollRounds
    ensures PollFrom(m, prs, env, round).Returned? ==>
      var o := PollFrom(m, prs, env, round).value;
      forall x :: x in o.testPrs && x !in m ==> exists c :: round < c <= env.pollRounds && FoundAt(env, x, c)
    decreases env.pollRounds - round
  {
    if round < env.pollRounds {
      ScanRoundFacts(m, prs, env, round);
      match ScanRound(m, prs, env, round)
      case Raised(e) =>
      case Returned(s) =>
        if !BreakAfter(s, prs) {
          PollFromFound(s.testPrs, prs, env, round + 1);
          var o := PollFrom(m, prs, env, round);
          assert o == PollFrom(s.testPrs, prs, env, round + 1);
          if o.Returned? {
            forall x | x in o.value.testPrs && x !in m
              ensures exists c :: round < c <= env.pollRounds && FoundAt(env, x, c)
            {
              if x in s.testPrs {
                assert FoundAt(env, x, round + 1);
              }
            }
          }
        } else {
          forall x | x in s.testPrs && x !in m
            ensures exists c :: round < c <= env.pollRounds && FoundAt(env, x, c)
          {
            assert FoundAt(env, x, round + 1);
          }
        }
    }
  }

  /** The clock allows at least one and at most fifteen rounds, and so does
      the loop. */
  lemma PollWithinBudget(m: map<int, int>, prs: seq<int>, env: Env)
    requires ClockConsistent(env) && forall x :: x in m ==> x in prs
    ensures PollFrom(m, prs, env, 0).Returned? ==>
      1 <= PollFrom(m, prs, env, 0).value.rounds <= MaxWaitSeconds / CheckIntervalSeconds
  {
    PollFromFacts(m, prs, env, 0);
  }

  /** Every PR mapped after the request phase needs no poll query, and the
      first poll round then breaks at once when the PRs are distinct. */
  lemma AllFoundUpFront(m: map<int, int>, prs: seq<int>, env: Env)
    requires 0 < env.pollRounds && Distinct(prs)
    requires forall x :: x in m <==> x in prs
    ensures PollFrom(m, prs, env, 0) == Returned(PollOutcome(m, 1, true))
  {
    ScanRoundRaises(m, prs, env, 0);
    ScanRoundFacts(m, prs, env, 0);
    var s := ScanRound(m, prs, env, 0).value;
    BreakIffAllMapped(s, prs);
    forall x | x in m ensures x in s.testPrs { }
    assert s.testPrs.Keys == m.Keys;
    assert s.testPrs == m;
  }

  /** The number of whole rounds after which the loop slept. */
  function Sleeps(o: PollOutcome): nat {
    if o.complete && o.rounds > 0 then o.rounds - 1 else o.rounds
  }

  /** The message the poll loop leaves: the one of the last round it slept
      after, or the one it started with. */
  function PollMessage(o: PollOutcome, before: Message): Message {
    if Sleeps(o) > 0 then WaitingElapsed(Sleeps(o) - 1) else before
  }

  /** The poll loop of `run_analysis`; an error ends it at once. */
  method PollTestPrs(job: JobRecord, m0: map<int, int>, prs: seq<int>, env: Env) returns (r: Reply<PollOutcome>)
    requires job.Valid()
    modifies job
    ensures job.Valid()
    ensures r == PollFrom(m0, prs, env, 0)
    ensures job.status == old(job.status) && job.statusLog == old(job.statusLog)
    ensures job.progress == old(job.progress) && job.progressLog == old(job.progressLog)
    ensures job.resultsFile == old(job.resultsFile)
    ensures r.Returned? ==> job.message == PollMessage(r.value, old(job.message))
  {
    ghost var goal := PollFrom(m0, prs, env, 0);
    var m := m0;
    var round := 0;
    while round < env.pollRounds
      invariant round <= env.pollRounds
      invariant goal == PollFrom(m, prs, env, round)
      invariant job.Valid()
      invariant job.status == old(job.status) && job.statusLog == old(job.statusLog)
      invariant job.progress == old(job.progress) && job.progressLog == old(job.progressLog)
      invariant job.resultsFile == old(job.resultsFile)
      invariant job.message == PollMessage(PollOutcome(m, round, false), old(job.message))
      decreases env.pollRounds - round
    {
      var pass := ScanPass(m, prs, env, round);
      if pass.Raised? {
        return Raised(pass.message);
      }
      var s := pass.value;
      if BreakAfter(s, prs) {
        return Returned(PollOutcome(s.testPrs, round + 1, true));
      }
      job.SetMessage(WaitingElapsed(round));
      m := s.testPrs;
      round := round + 1;
    }
    r := Returned(PollOutcome(m, round, false));
  }

  /** One pass of the `for pr_number in pr_numbers` loop inside a poll round;
      it stops at the first query that raises. */
  method ScanPass(m: map<int, int>, prs: seq<int>, env: Env, round: nat) returns (r: Reply<Scan>)
    ensures r == ScanRound(m, prs, env, round)
  {
    var s := Scan(m, true, []);
    for i := 0 to |prs|
      invariant ScanRound(m, prs[..i], env, round) == Returned(s)
    {
      assert prs[..i + 1][..i] == prs[..i];
      var pr := prs[i];
      if pr !in s.testPrs {
        var found := env.findTestPr(pr, round + 1);
        match found
        case Raised(e) =>
          assert ScanRound(m, prs[..i + 1], env, round) == Raised(e);
          ScanRaisedExtends(m, prs, i + 1, env, round);
          return Raised(e);
        case Returned(Some(n)) =>
          s := s.(testPrs := s.testPrs[pr := n], queried := s.queried + [pr]);
        case Returned(None) =>
          s := s.(allReady := false, queried := s.queried + [pr]);
      }
    }
    assert prs[..|prs|] == prs;
    r := Returned(s);
  }

  /** Once a prefix of the pass raises, the whole pass raises. */
  lemma {:induction false} ScanRaisedExtends(m: map<int, int>, prs: seq<int>, i: nat, env: Env, round: nat)
    requires i <= |prs| && ScanRound(m, prs[..i], env, round).Raised?
    ensures ScanRound(m, prs, env, round) == ScanRound(m, prs[..i], env, round)
    decreases |prs| - i
  {
    if i < |prs| {
      assert prs[..i + 1][..i] == prs[..i];
      ScanRaisedExtends(m, prs, i + 1, env, round);
    } else {
      assert prs[..i] == prs;
    }
  }
}
