/** The PR listing endpoint `/api/repos/<owner>/<repo>/prs`: the token check,
    the filter that hides the test PRs Coderabbit opens, and the summary kept
    of every other PR. */
module PrFilter {
  import opened Text

  datatype User = User(login: Option<string>)

  /** A PR as the GitHub API lists it (the keys the server reads). */
  datatype PullRequest = PullRequest(
    number: int,
    title: Option<string>,
    state: Option<string>,
    htmlUrl: Option<string>,
    user: Option<User>,
    createdAt: Option<string>,
    updatedAt: Option<string>)

  /** `pr.get('user', {}).get('login', '')` */
  function LoginOf(user: Option<User>): string {
    match user
    case None => ""
    case Some(u) => u.login.GetOr("")
  }

  /** The title phrases of a generated-test PR, in the order they are tried. */
  const TestTitleKeywords: seq<string> :=
    ["coderabbit generated unit tests", "generated unit tests", "unit test", "test for pr"]

  /** The author is Coderabbit or some other bot. */
  predicate BotAuthor(login: string) {
    Contains(Lower(login), "coderabbit") || Contains(Lower(login), "bot")
  }

  /** The title names generated unit tests. */
  predicate TestTitle(title: string) {
    exists k | 0 <= k < |TestTitleKeywords| :: Contains(Lower(title), TestTitleKeywords[k])
  }

  /** `is_test_pr`: a bot opened the PR and its title names generated tests. */
  predicate IsTestPr(pr: PullRequest) {
    BotAuthor(LoginOf(pr.user)) && TestTitle(pr.title.GetOr(""))
  }

  /** The first two title phrases contain the third, so the four-phrase test
      is the same as asking for "unit test" or "test for pr". */
  lemma TestTitleTwoPhrases(title: string)
    ensures TestTitle(title) <==>
      Contains(Lower(title), "unit test") || Contains(Lower(title), "test for pr")
  {
    var t := Lower(title);
    assert OccursAt(TestTitleKeywords[0], "unit test", 21);
    assert OccursAt(TestTitleKeywords[1], "unit test", 10);
    if Contains(t, TestTitleKeywords[0]) {
      ContainsTransitive("unit test", TestTitleKeywords[0], t);
    }
    if Contains(t, TestTitleKeywords[1]) {
      ContainsTransitive("unit test", TestTitleKeywords[1], t);
    }
    if Contains(t, "unit test") {
      assert Contains(t, TestTitleKeywords[2]);
    }
    if Contains(t, "test for pr") {
      assert Contains(t, TestTitleKeywords[3]);
    }
  }

  /** A list comprehension with a condition: the elements that satisfy `keep`,
      in their order. */
  function Filter<T>(keep: T -> bool, s: seq<T>): (r: seq<T>)
    ensures |r| <= |s|
  {
    if s == [] then [] else (if keep(s[0]) then [s[0]] else []) + Filter(keep, s[1..])
  }

  /** Filtering distributes over concatenation. */
  lemma {:induction false} FilterAppend<T>(keep: T -> bool, a: seq<T>, b: seq<T>)
    ensures Filter(keep, a + b) == Filter(keep, a) + Filter(keep, b)
  {
    if a == [] {
      assert a + b == b;
    } else {
      var head := if keep(a[0]) then [a[0]] else [];
      assert (a + b)[0] == a[0] && (a + b)[1..] == a[1..] + b;
      FilterAppend(keep, a[1..], b);
      calc {
        Filter(keep, a + b);
        head + Filter(keep, a[1..] + b);
        head + (Filter(keep, a[1..]) + Filter(keep, b));
        (head + Filter(keep, a[1..])) + Filter(keep, b);
      }
    }
  }

  /** Filtering keeps exactly the elements that satisfy `keep`, each as often
      as it occurs. */
  lemma {:induction false} FilterCounts<T>(keep: T -> bool, s: seq<T>)
    ensures forall x :: x in Filter(keep, s) ==> keep(x)
    ensures forall x :: multiset(Filter(keep, s))[x] == if keep(x) then multiset(s)[x] else 0
  {
    if s != [] {
      FilterCounts(keep, s[1..]);
      assert s == [s[0]] + s[1..];
    }
  }

  /** `[pr for pr in prs if not is_test_pr(pr)]` */
  function WithoutTestPrs(prs: seq<PullRequest>): (r: seq<PullRequest>)
    ensures |r| <= |prs|
  {
    Filter(p => !IsTestPr(p), prs)
  }

  /** Every test PR is removed and every other PR is kept as often as it
      occurs. */
  lemma WithoutTestPrsKeeps(prs: seq<PullRequest>)
    ensures forall p :: p in WithoutTestPrs(prs) ==> !IsTestPr(p)
    ensures forall p :: multiset(WithoutTestPrs(prs))[p] == if IsTestPr(p) then 0 else multiset(prs)[p]
  {
    FilterCounts(p => !IsTestPr(p), prs);
  }

  /** The filter keeps the original order: it distributes over concatenation. */
  lemma WithoutTestPrsAppend(a: seq<PullRequest>, b: seq<PullRequest>)
    ensures WithoutTestPrs(a + b) == WithoutTestPrs(a) + WithoutTestPrs(b)
  {
    FilterAppend(p => !IsTestPr(p), a, b);
  }

  /** One element of the `prs` list the endpoint returns. */
  datatype PrSummary = PrSummary(
    number: int, title: string, state: string, htmlUrl: string,
    user: string, createdAt: string, updatedAt: string)

  function Summarize(pr: PullRequest): PrSummary {
    PrSummary(pr.number, pr.title.GetOr(""), pr.state.GetOr(""), pr.htmlUrl.GetOr(""),
              LoginOf(pr.user), pr.createdAt.GetOr(""), pr.updatedAt.GetOr(""))
  }

  function SummarizeAll(prs: seq<PullRequest>): (r: seq<PrSummary>)
    ensures |r| == |prs|
    ensures forall i :: 0 <= i < |prs| ==> r[i] == Summarize(prs[i])
  {
    if prs == [] then [] else [Summarize(prs[0])] + SummarizeAll(prs[1..])
  }

  /** The answers of the endpoint: the list (200), a missing token (400) or
      the error the GitHub listing raised (500). */
  datatype ListPrsReply = PrList(prs: seq<PrSummary>) | MissingToken | ListingFailed(error: string)

  /** `get_prs`, given the token query parameter and what `list_prs` did. */
  function ListPrs(token: Option<string>, listing: Reply<seq<PullRequest>>): (r: ListPrsReply)
    ensures r == MissingToken <==> !Truthy(token)
    ensures Truthy(token) && listing.Raised? ==> r == ListingFailed(listing.message)
    ensures r.PrList? <==> Truthy(token) && listing.Returned?
    ensures r.PrList? ==> r.prs == SummarizeAll(WithoutTestPrs(listing.value))
  {
    if !Truthy(token) then MissingToken
    else match listing
      case Raised(e) => ListingFailed(e)
      case Returned(prs) => PrList(SummarizeAll(WithoutTestPrs(prs)))
  }

  /** The list the endpoint returns has one entry per kept PR, with its
      number, and no entry is by a bot with a generated-test title. */
  lemma ListedPrsAreNoTestPrs(token: Option<string>, listing: Reply<seq<PullRequest>>)
    ensures var r := ListPrs(token, listing);
      r.PrList? ==>
        && |r.prs| == |WithoutTestPrs(listing.value)|
        && forall i :: 0 <= i < |r.prs| ==>
             r.prs[i].number == WithoutTestPrs(listing.value)[i].number &&
             !(BotAuthor(r.prs[i].user) && TestTitle(r.prs[i].title))
  {
    if ListPrs(token, listing).PrList? {
      var kept := WithoutTestPrs(listing.value);
      WithoutTestPrsKeeps(listing.value);
      assert forall i :: 0 <= i < |kept| ==> !IsTestPr(kept[i]);
    }
  }
}
