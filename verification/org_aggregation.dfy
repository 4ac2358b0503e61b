/** Organization aggregation (`count_user_contributions`) and the two public
    entry points: list the organization's repositories, aggregate each one,
    and add up the repositories that succeeded into one report. */
module OrgAggregation {
  import opened Wrappers
  import opened GitHubApi
  import opened RepoAggregation

  /** The organization both entry points use. */
  const Organization: string := "Dijkstra-Edu"

  /** The selection `getAllGitHubData` passes: every category enabled. */
  const DefaultSelection: Selection := map[CommitsKey := true, IssuesKey := true, PullsKey := true]

  /** The `GitHubContributions` record returned to the caller. */
  datatype Report = Report(
    username: string,
    organization: string,
    totalCommits: nat,
    totalIssues: nat,
    totalPullRequests: nat,
    totalLinesAdded: nat,
    totalLinesDeleted: nat)

  /** The search parameters of `getGitHubDataWithSearchParams`. */
  datatype SearchParams = SearchParams(searchParams: Selection)

  /** `f"{org}/{repo_name}"`. */
  function FullName(org: string, name: string): string {
    org + "/" + name
  }

  /** The outcome of every repository task, in listing order (the gathered
      results, exceptions kept as values). */
  function RepoOutcomes(u: Upstream, org: string, username: string, params: Selection, repos: seq<RepoItem>)
    : (rs: seq<Result<Partial, ApiError>>)
    ensures |rs| == |repos|
    ensures forall i :: 0 <= i < |repos| ==>
              rs[i] == ProcessRepo(u, FullName(org, repos[i].name), username, params)
  {
    seq(|repos|, i requires 0 <= i < |repos| => ProcessRepo(u, FullName(org, repos[i].name), username, params))
  }

  /** The partial results of the repositories that succeeded, in order. */
  function Succeeded(rs: seq<Result<Partial, ApiError>>): (ps: seq<Partial>)
    ensures |ps| <= |rs|
    ensures |ps| == |rs| <==> forall i :: 0 <= i < |rs| ==> rs[i].Ok?
  {
    if |rs| == 0 then []
    else
      var init := rs[..|rs| - 1];
      var last := rs[|rs| - 1];
      assert forall i :: 0 <= i < |rs| - 1 ==> rs[i] == init[i];
      Succeeded(init) + (if last.Ok? then [last.value] else [])
  }

  /** Field-wise sum of partial results. */
  function SumPartials(ps: seq<Partial>): Partial {
    if |ps| == 0 then Zero else Add(SumPartials(ps[..|ps| - 1]), ps[|ps| - 1])
  }

  /** The totals of a set of repository outcomes: failures count for nothing. */
  function Totals(rs: seq<Result<Partial, ApiError>>): Partial {
    SumPartials(Succeeded(rs))
  }

  /** What one repository outcome adds to the totals. */
  function Contribution(o: Result<Partial, ApiError>): Partial {
    if o.Ok? then o.value else Zero
  }

  function ReportOf(username: string, org: string, t: Partial): Report {
    Report(username, org, t.commits, t.issues, t.pulls, t.additions, t.deletions)
  }

  /** What `count_user_contributions` returns: the error of the repository
      listing, or a report that echoes the user and organization and carries
      the totals of the repositories that succeeded. */
  function Contributions(u: Upstream, username: string, org: string, params: Selection): (r: Result<Report, ApiError>)
    ensures r.Err? <==> !Accepted(u.orgRepos(org))
    ensures r.Err? ==> r.error == FetchJson(u.orgRepos(org)).error
    ensures r.Ok? ==> r.value.username == username && r.value.organization == org
    ensures r.Ok? && u.orgRepos(org).json == [] ==> r.value == Report(username, org, 0, 0, 0, 0, 0)
  {
    var repos :- FetchJson(u.orgRepos(org));
    Ok(ReportOf(username, org, Totals(RepoOutcomes(u, org, username, params, repos))))
  }

  /** The loop over the gathered results: five running totals, to which
      each successful partial result is added field by field; failures are
      skipped. */
  method FoldOutcomes(results: seq<Result<Partial, ApiError>>) returns (totals: Partial)
    ensures totals == Totals(results)
  {
    totals := Zero;
    var i := 0;
    while i < |results|
      invariant 0 <= i <= |results|
      invariant totals == Totals(results[..i])
    {
      TotalsPrefixStep(results, i);
      var result := results[i];
      if result.Ok? {
        totals := Add(totals, result.value);
      }
      i := i + 1;
    }
    assert results[..|results|] == results;
  }

  /** `count_user_contributions`: a failed listing raises; otherwise every
      repository is aggregated and the outcomes folded into the report. */
  method CountUserContributions(u: Upstream, username: string, org: string, params: Selection)
    returns (r: Result<Report, ApiError>)
    ensures r == Contributions(u, username, org, params)
  {
    var listing := FetchJson(u.orgRepos(org));
    if listing.Err? {
      return Err(listing.error);
    }
    var results := RepoOutcomes(u, org, username, params, listing.value);
    var totals := FoldOutcomes(results);
    r := Ok(ReportOf(username, org, totals));
  }

  /** `getAllGitHubData`: the fixed organization, every category enabled. */
  function GetAllGitHubData(u: Upstream, username: string): (r: Result<Report, ApiError>)
    ensures r.Ok? ==> r.value.username == username && r.value.organization == Organization
  {
    Contributions(u, username, Organization, DefaultSelection)
  }

  /** `getGitHubDataWithSearchParams`: the fixed organization, the caller's flags. */
  function GetGitHubDataWithSearchParams(u: Upstream, username: string, params: SearchParams): (r: Result<Report, ApiError>)
    ensures r.Ok? ==> r.value.username == username && r.value.organization == Organization
    ensures r.Err? <==> GetAllGitHubData(u, username).Err?
  {
    Contributions(u, username, Organization, params.searchParams)
  }

  // ----------------------------------------------------------------- lemmas

  /** Adding one outcome at the end adds its contribution. */
  lemma TotalsSnoc(rs: seq<Result<Partial, ApiError>>, o: Result<Partial, ApiError>)
    ensures Totals(rs + [o]) == Add(Totals(rs), Contribution(o))
  {
    assert (rs + [o])[..|rs|] == rs;
    var ps := Succeeded(rs);
    if o.Ok? {
      assert (ps + [o.value])[..|ps|] == ps;
    } else {
      assert ps + [] == ps;
    }
  }

  /** The totals of a prefix one longer add the next outcome's contribution. */
  lemma TotalsPrefixStep(rs: seq<Result<Partial, ApiError>>, i: nat)
    requires i < |rs|
    ensures Totals(rs[..i + 1]) == Add(Totals(rs[..i]), Contribution(rs[i]))
    ensures rs[i].Ok? ==> Totals(rs[..i + 1]) == Add(Totals(rs[..i]), rs[i].value)
    ensures rs[i].Err? ==> Totals(rs[..i + 1]) == Totals(rs[..i])
  {
    assert rs[..i + 1] == rs[..i] + [rs[i]];
    TotalsSnoc(rs[..i], rs[i]);
    AddZero(Totals(rs[..i]));
  }

  lemma AddSwap(a: Partial, x: Partial, b: Partial)
    ensures Add(Add(a, x), b) == Add(Add(a, b), x)
  {
  }

  lemma AddZero(p: Partial)
    ensures Add(p, Zero) == p
    ensures Add(Zero, p) == p
  {
  }

  lemma {:induction false} SucceededAppend(a: seq<Result<Partial, ApiError>>, b: seq<Result<Partial, ApiError>>)
    ensures Succeeded(a + b) == Succeeded(a) + Succeeded(b)
    decreases |b|
  {
    if |b| == 0 {
      assert a + b == a;
    } else {
      var b' := b[..|b| - 1];
      assert (a + b)[..|a + b| - 1] == a + b';
      assert (a + b)[|a + b| - 1] == b[|b| - 1];
      SucceededAppend(a, b');
    }
  }

  /** The filter keeps exactly the successful outcomes: each partial result
      occurs in it as often as an `Ok` carrying it occurs among the outcomes. */
  lemma {:induction false} SucceededCounts(rs: seq<Result<Partial, ApiError>>, p: Partial)
    ensures multiset(Succeeded(rs))[p] == multiset(rs)[Ok(p)]
    ensures p in Succeeded(rs) <==> Ok(p) in rs
    decreases |rs|
  {
    if |rs| > 0 {
      var init, last := rs[..|rs| - 1], rs[|rs| - 1];
      assert rs == init + [last];
      SucceededCounts(init, p);
      assert Succeeded(rs) == Succeeded(init) + (if last.Ok? then [last.value] else []);
    }
  }

  lemma {:induction false} SumPartialsAppend(a: seq<Partial>, b: seq<Partial>)
    ensures SumPartials(a + b) == Add(SumPartials(a), SumPartials(b))
    decreases |b|
  {
    if |b| == 0 {
      assert a + b == a;
      AddZero(SumPartials(a));
    } else {
      var b' := b[..|b| - 1];
      assert (a + b)[..|a + b| - 1] == a + b';
      assert (a + b)[|a + b| - 1] == b[|b| - 1];
      SumPartialsAppend(a, b');
    }
  }

  /** Totals distribute over concatenation of outcome lists. */
  lemma TotalsAppend(a: seq<Result<Partial, ApiError>>, b: seq<Result<Partial, ApiError>>)
    ensures Totals(a + b) == Add(Totals(a), Totals(b))
  {
    SucceededAppend(a, b);
    SumPartialsAppend(Succeeded(a), Succeeded(b));
  }

  /** The totals of one outcome are its contribution. */
  lemma TotalsSingleton(o: Result<Partial, ApiError>)
    ensures Totals([o]) == Contribution(o)
  {
    assert [] + [o] == [o];
    TotalsSnoc([], o);
    AddZero(Contribution(o));
  }

  /** The totals of a non-empty list: its tail's plus its head's contribution. */
  lemma TotalsUncons(rs: seq<Result<Partial, ApiError>>)
    requires |rs| > 0
    ensures Totals(rs) == Add(Totals(rs[1..]), Contribution(rs[0]))
  {
    assert rs == [rs[0]] + rs[1..];
    TotalsAppend([rs[0]], rs[1..]);
    TotalsSingleton(rs[0]);
  }

  /** Taking one repository's outcome out of the list subtracts exactly its
      contribution: its partial result if it succeeded, nothing otherwise. */
  lemma RemoveOutcome(rs: seq<Result<Partial, ApiError>>, k: nat)
    requires k < |rs|
    ensures Totals(rs) == Add(Totals(rs[..k] + rs[k + 1..]), Contribution(rs[k]))
  {
    var before, after := rs[..k], rs[k + 1..];
    assert rs == before + [rs[k]] + after;
    TotalsAppend(before + [rs[k]], after);
    TotalsAppend(before, [rs[k]]);
    TotalsAppend(before, after);
    TotalsSingleton(rs[k]);
    AddSwap(Totals(before), Contribution(rs[k]), Totals(after));
  }

  /** A repository whose aggregation failed adds nothing to any total: the
      totals are those of the other repositories alone. */
  lemma FailedRepositoryContributesNothing(rs: seq<Result<Partial, ApiError>>, k: nat)
    requires k < |rs| && rs[k].Err?
    ensures Totals(rs) == Totals(rs[..k] + rs[k + 1..])
  {
    RemoveOutcome(rs, k);
    AddZero(Totals(rs[..k] + rs[k + 1..]));
  }

  /** Fault tolerance at the level of the report: when repository `k`'s
      aggregation fails, the call still succeeds, and its report is the one
      the organization would give had `k` never been listed. */
  lemma FailedRepositoryDropped(u: Upstream, username: string, org: string, params: Selection, k: nat)
    requires Accepted(u.orgRepos(org)) && k < |u.orgRepos(org).json|
    requires ProcessRepo(u, FullName(org, u.orgRepos(org).json[k].name), username, params).Err?
    ensures
      var repos := u.orgRepos(org).json;
      var listing := Answered(OkStatus, u.orgRepos(org).text, repos[..k] + repos[k + 1..]);
      var without := u.(orgRepos := o => if o == org then listing else u.orgRepos(o));
      Contributions(u, username, org, params).Ok? &&
      Contributions(u, username, org, params) == Contributions(without, username, org, params)
  {
    var repos := u.orgRepos(org).json;
    var rest := repos[..k] + repos[k + 1..];
    var listing := Answered(OkStatus, u.orgRepos(org).text, rest);
    var without := u.(orgRepos := o => if o == org then listing else u.orgRepos(o));
    var rs := RepoOutcomes(u, org, username, params, repos);
    forall i | 0 <= i < |rest|
      ensures ProcessRepo(without, FullName(org, rest[i].name), username, params)
           == ProcessRepo(u, FullName(org, rest[i].name), username, params)
    {
      ProcessRepoIgnoresListing(u, without.orgRepos, FullName(org, rest[i].name), username, params);
    }
    assert RepoOutcomes(without, org, username, params, rest) == rs[..k] + rs[k + 1..];
    FailedRepositoryContributesNothing(rs, k);
  }

  /** A repository that succeeded adds its whole partial result, field by field. */
  lemma SucceededRepositoryCounted(rs: seq<Result<Partial, ApiError>>, k: nat)
    requires k < |rs| && rs[k].Ok?
    ensures Totals(rs) == Add(Totals(rs[..k] + rs[k + 1..]), rs[k].value)
  {
    RemoveOutcome(rs, k);
  }

  /** Removing the element at `k` removes one occurrence of it. */
  lemma MultisetRemove<T>(s: seq<T>, k: nat)
    requires k < |s|
    ensures multiset(s[..k] + s[k + 1..]) == multiset(s) - multiset{s[k]}
  {
    assert s == s[..k] + [s[k]] + s[k + 1..];
  }

  /** The order in which the repository tasks complete does not matter:
      two outcome lists with the same elements have the same totals. */
  lemma {:induction false} OutcomeOrderIrrelevant(a: seq<Result<Partial, ApiError>>, b: seq<Result<Partial, ApiError>>)
    requires multiset(a) == multiset(b)
    ensures Totals(a) == Totals(b)
    decreases |a|
  {
    if |a| == 0 {
      assert |b| == |multiset(b)| == 0;
    } else {
      assert a[0] in multiset(b);
      var k :| 0 <= k < |b| && b[k] == a[0];
      var rest := b[..k] + b[k + 1..];
      assert multiset(a[1..]) == multiset(rest) by {
        assert a == [a[0]] + a[1..];
        MultisetRemove(b, k);
      }
      OutcomeOrderIrrelevant(a[1..], rest);
      RemoveOutcome(b, k);
      TotalsUncons(a);
    }
  }

  /** Outcomes whose successes all leave a category untouched total to an
      untouched category. */
  lemma {:induction false} TotalsUntouched(rs: seq<Result<Partial, ApiError>>, c: Category)
    requires forall i :: 0 <= i < |rs| && rs[i].Ok? ==> Untouched(rs[i].value, c)
    ensures Untouched(Totals(rs), c)
    decreases |rs|
  {
    if |rs| > 0 {
      var init := rs[..|rs| - 1];
      assert rs == init + [rs[|rs| - 1]];
      assert forall i :: 0 <= i < |init| ==> init[i] == rs[i];
      TotalsUntouched(init, c);
      TotalsSnoc(init, rs[|rs| - 1]);
    }
  }

  /** The report's totals for a category are zero. */
  predicate ReportUntouched(r: Report, c: Category) {
    match c
    case Commits => r.totalCommits == 0 && r.totalLinesAdded == 0 && r.totalLinesDeleted == 0
    case Issues => r.totalIssues == 0
    case Pulls => r.totalPullRequests == 0
  }

  /** A category whose flag is explicitly false is 0 in the report, in every
      repository and therefore in the totals. */
  lemma DisabledCategoryZero(u: Upstream, username: string, org: string, params: Selection, c: Category)
    requires !Enabled(params, Key(c))
    ensures Contributions(u, username, org, params).Ok? ==>
              ReportUntouched(Contributions(u, username, org, params).value, c)
  {
    if Accepted(u.orgRepos(org)) {
      var repos := u.orgRepos(org).json;
      var rs := RepoOutcomes(u, org, username, params, repos);
      forall i | 0 <= i < |rs| && rs[i].Ok?
        ensures Untouched(rs[i].value, c)
      {
        DisabledCategoryUntouched(u, FullName(org, repos[i].name), username, params, c);
      }
      TotalsUntouched(rs, c);
    }
  }

  /** The default selection enables every category. */
  lemma DefaultSelectionEnablesAll()
    ensures forall c: Category :: Enabled(DefaultSelection, Key(c))
  {
    assert Enabled(DefaultSelection, Key(Commits));
    assert Enabled(DefaultSelection, Key(Issues));
    assert Enabled(DefaultSelection, Key(Pulls));
  }

  /** Two selections that enable the same categories give the same result. */
  lemma SameFlagsSameReport(u: Upstream, username: string, org: string, p1: Selection, p2: Selection)
    requires forall c: Category :: Enabled(p1, Key(c)) == Enabled(p2, Key(c))
    ensures Contributions(u, username, org, p1) == Contributions(u, username, org, p2)
  {
    if Accepted(u.orgRepos(org)) {
      var repos := u.orgRepos(org).json;
      forall i | 0 <= i < |repos|
        ensures ProcessRepo(u, FullName(org, repos[i].name), username, p1)
             == ProcessRepo(u, FullName(org, repos[i].name), username, p2)
      {
        SameFlagsSameOutcome(u, FullName(org, repos[i].name), username, p1, p2);
      }
      assert RepoOutcomes(u, org, username, p1, repos) == RepoOutcomes(u, org, username, p2, repos);
    }
  }

  /** Search parameters that set no flag to false give exactly the report of
      `getAllGitHubData`; in particular an empty selection does. */
  lemma NoFalseFlagIsAllData(u: Upstream, username: string, params: SearchParams)
    requires forall c: Category :: Key(c) in params.searchParams ==> params.searchParams[Key(c)]
    ensures GetGitHubDataWithSearchParams(u, username, params) == GetAllGitHubData(u, username)
  {
    DefaultSelectionEnablesAll();
    SameFlagsSameReport(u, username, Organization, params.searchParams, DefaultSelection);
  }
}
