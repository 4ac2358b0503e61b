/** Per-repository aggregation (`process_repo` and `get_commit_stats`): three
    branches gated by feature flags, each reading one list from the API; the
    commits branch also reads the diff statistics of every commit that has a sha. */
module RepoAggregation {
  import opened Wrappers
  import opened GitHubApi

  /** The feature selection as the caller passes it: flag name to flag. */
  type Selection = map<string, bool>

  const CommitsKey: string := "commits"
  const IssuesKey: string := "issues"
  const PullsKey: string := "pulls"

  /** `params.get(key, True)`: a flag missing from the selection is enabled. */
  function Enabled(params: Selection, key: string): bool {
    if key in params then params[key] else true
  }

  /** The three gated categories. */
  datatype Category = Commits | Issues | Pulls

  function Key(c: Category): string {
    match c
    case Commits => CommitsKey
    case Issues => IssuesKey
    case Pulls => PullsKey
  }

  /** One repository's counts (the `result` dictionary of `process_repo`). */
  datatype Partial = Partial(commits: nat, issues: nat, pulls: nat, additions: nat, deletions: nat)

  const Zero: Partial := Partial(0, 0, 0, 0, 0)

  /** Field-wise sum. */
  function Add(a: Partial, b: Partial): Partial {
    Partial(a.commits + b.commits, a.issues + b.issues, a.pulls + b.pulls,
            a.additions + b.additions, a.deletions + b.deletions)
  }

  /** Every field that category `c` writes is still 0; for commits that is
      the commit count and both line counts. */
  predicate Untouched(p: Partial, c: Category) {
    match c
    case Commits => p.commits == 0 && p.additions == 0 && p.deletions == 0
    case Issues => p.issues == 0
    case Pulls => p.pulls == 0
  }

  /** Lines added and deleted by some commits. */
  datatype Lines = Lines(additions: nat, deletions: nat)

  const NoLines: Lines := Lines(0, 0)

  function AddLines(a: Lines, b: Lines): Lines {
    Lines(a.additions + b.additions, a.deletions + b.deletions)
  }

  // ---------------------------------------------------------------- commits

  /** `if sha:` — the sha is present, not null and not the empty string. */
  predicate HasSha(c: CommitItem) {
    c.sha.Some? && c.sha.value != ""
  }

  /** The shas whose detail is fetched, in listing order: one per commit that
      has a sha, none for the others. */
  function ShaTasks(commits: seq<CommitItem>): (shas: seq<string>)
    ensures |shas| <= |commits|
    ensures |shas| == |commits| <==> forall i :: 0 <= i < |commits| ==> HasSha(commits[i])
    ensures forall s :: s in shas <==>
              exists i :: 0 <= i < |commits| && HasSha(commits[i]) && commits[i].sha.value == s
  {
    if |commits| == 0 then []
    else
      var rest := ShaTasks(commits[1..]);
      if HasSha(commits[0]) then
        var shas := [commits[0].sha.value] + rest;
        assert forall s :: s in shas <==> s == commits[0].sha.value || s in rest;
        assert forall i :: 1 <= i < |commits| ==> commits[i] == commits[1..][i - 1];
        shas
      else
        assert forall i :: 1 <= i < |commits| ==> commits[i] == commits[1..][i - 1];
        rest
  }

  /** `get_commit_stats`: never raises. Whatever goes wrong — no answer, a
      body that is not an object, no `stats` key — yields the empty object.
      The status code is not checked: any object body is searched for `stats`. */
  function CommitStats(r: Response<CommitDetail>): (s: StatsValue)
    ensures r.NoResponse? ==> s == StatsObject(None, None)
    ensures r.Answered? && r.json.DetailNotObject? ==> s == StatsObject(None, None)
    ensures r.Answered? && r.json.DetailObject? && r.json.stats.None? ==> s == StatsObject(None, None)
    ensures r.Answered? && r.json.DetailObject? && r.json.stats.Some? ==> s == r.json.stats.value
  {
    match r
    case NoResponse => StatsObject(None, None)
    case Answered(_, _, detail) =>
      match detail
      case DetailNotObject => StatsObject(None, None)
      case DetailObject(stats) => stats.GetOr(StatsObject(None, None))
  }

  /** The lines one commit's stats add to the totals: nothing unless the
      value is an object, and 0 for each missing field. */
  function StatsLines(s: StatsValue): (l: Lines)
    ensures s.StatsNotObject? ==> l == NoLines
    ensures s.StatsObject? ==> l.additions == (if s.additions.Some? then s.additions.value else 0)
    ensures s.StatsObject? ==> l.deletions == (if s.deletions.Some? then s.deletions.value else 0)
  {
    if s.StatsObject? then Lines(s.additions.GetOr(0), s.deletions.GetOr(0)) else NoLines
  }

  /** What the detail fetch of one sha adds. */
  function ShaLines(details: (string, string) -> Response<CommitDetail>, fullName: string, sha: string): Lines {
    StatsLines(CommitStats(details(fullName, sha)))
  }

  /** The sum over the gathered stats of the given shas. */
  function SumStats(details: (string, string) -> Response<CommitDetail>, fullName: string, shas: seq<string>): Lines {
    if |shas| == 0 then NoLines
    else AddLines(ShaLines(details, fullName, shas[0]), SumStats(details, fullName, shas[1..]))
  }

  /** The lines added and deleted by a commit listing. */
  function CommitLines(details: (string, string) -> Response<CommitDetail>, fullName: string, commits: seq<CommitItem>): Lines {
    SumStats(details, fullName, ShaTasks(commits))
  }

  // ----------------------------------------------------------------- issues

  /** `sum(1 for issue in issues if 'pull_request' not in issue)`: the
      number of occurrences of the item without the marker. */
  function CountNonPull(issues: seq<IssueItem>): (n: nat)
    ensures n == multiset(issues)[IssueItem(false)]
    ensures n <= |issues|
    ensures n == |issues| <==> forall i :: 0 <= i < |issues| ==> !issues[i].hasPullRequestKey
    ensures n == 0 <==> forall i :: 0 <= i < |issues| ==> issues[i].hasPullRequestKey
  {
    if |issues| == 0 then 0
    else
      assert forall i :: 1 <= i < |issues| ==> issues[i] == issues[1..][i - 1];
      assert issues == [issues[0]] + issues[1..];
      (if issues[0].hasPullRequestKey then 0 else 1) + CountNonPull(issues[1..])
  }

  // ---------------------------------------------------------- the branches

  function WithCommits(u: Upstream, fullName: string, username: string, p: Partial): Result<Partial, ApiError> {
    var commits :- FetchJson(u.commits(fullName, username));
    var lines := CommitLines(u.commitDetail, fullName, commits);
    Ok(p.(commits := |commits|,
          additions := p.additions + lines.additions,
          deletions := p.deletions + lines.deletions))
  }

  function WithIssues(u: Upstream, fullName: string, username: string, p: Partial): Result<Partial, ApiError> {
    var issues :- FetchJson(u.issues(fullName, username));
    Ok(p.(issues := CountNonPull(issues)))
  }

  function WithPulls(u: Upstream, fullName: string, username: string, p: Partial): Result<Partial, ApiError> {
    var pulls :- FetchJson(u.pulls(fullName, username));
    Ok(p.(pulls := |pulls|))
  }

  /** Every list fetch that an enabled branch makes is accepted. */
  predicate BranchesAccepted(u: Upstream, fullName: string, username: string, params: Selection) {
    && (Enabled(params, CommitsKey) ==> Accepted(u.commits(fullName, username)))
    && (Enabled(params, IssuesKey) ==> Accepted(u.issues(fullName, username)))
    && (Enabled(params, PullsKey) ==> Accepted(u.pulls(fullName, username)))
  }

  /** `process_repo`: the repository's partial result, or the error of the
      first enabled list fetch that was not accepted. */
  function ProcessRepo(u: Upstream, fullName: string, username: string, params: Selection): (r: Result<Partial, ApiError>)
    ensures r.Ok? <==> BranchesAccepted(u, fullName, username, params)
    ensures r.Err? && Enabled(params, CommitsKey) && !Accepted(u.commits(fullName, username)) ==>
              r.error == FetchJson(u.commits(fullName, username)).error
    ensures r.Ok? ==> r.value.commits == (if Enabled(params, CommitsKey) then |u.commits(fullName, username).json| else 0)
    ensures r.Ok? ==> r.value.additions == (if Enabled(params, CommitsKey) then CommitLines(u.commitDetail, fullName, u.commits(fullName, username).json).additions else 0)
    ensures r.Ok? ==> r.value.deletions == (if Enabled(params, CommitsKey) then CommitLines(u.commitDetail, fullName, u.commits(fullName, username).json).deletions else 0)
    ensures r.Ok? ==> r.value.issues == (if Enabled(params, IssuesKey) then CountNonPull(u.issues(fullName, username).json) else 0)
    ensures r.Ok? ==> r.value.pulls == (if Enabled(params, PullsKey) then |u.pulls(fullName, username).json| else 0)
  {
    var afterCommits :- if Enabled(params, CommitsKey) then WithCommits(u, fullName, username, Zero) else Ok(Zero);
    var afterIssues :- if Enabled(params, IssuesKey) then WithIssues(u, fullName, username, afterCommits) else Ok(afterCommits);
    var afterPulls :- if Enabled(params, PullsKey) then WithPulls(u, fullName, username, afterIssues) else Ok(afterIssues);
    Ok(afterPulls)
  }

  // ----------------------------------------------------------------- lemmas

  lemma {:induction false} ShaTasksAppend(a: seq<CommitItem>, b: seq<CommitItem>)
    ensures ShaTasks(a + b) == ShaTasks(a) + ShaTasks(b)
    decreases |a|
  {
    if |a| == 0 {
      assert a + b == b;
    } else {
      assert (a + b)[1..] == a[1..] + b;
      ShaTasksAppend(a[1..], b);
    }
  }

  lemma {:induction false} SumStatsAppend(details: (string, string) -> Response<CommitDetail>, fullName: string, a: seq<string>, b: seq<string>)
    ensures SumStats(details, fullName, a + b) == AddLines(SumStats(details, fullName, a), SumStats(details, fullName, b))
    decreases |a|
  {
    if |a| == 0 {
      assert a + b == b;
    } else {
      assert (a + b)[0] == a[0];
      assert (a + b)[1..] == a[1..] + b;
      SumStatsAppend(details, fullName, a[1..], b);
    }
  }

  /** A commit without a sha is counted by the commits branch but adds no
      lines: inserting it anywhere into the listing leaves the line totals
      unchanged while the listing grows by one. */
  lemma ShalessCommitAddsNoLines(details: (string, string) -> Response<CommitDetail>, fullName: string, a: seq<CommitItem>, c: CommitItem, b: seq<CommitItem>)
    requires !HasSha(c)
    ensures CommitLines(details, fullName, a + [c] + b) == CommitLines(details, fullName, a + b)
    ensures |a + [c] + b| == |a + b| + 1
  {
    ShaTasksAppend(a + [c], b);
    ShaTasksAppend(a, [c]);
    ShaTasksAppend(a, b);
    assert ShaTasks([c]) == [];
    assert ShaTasks(a + [c]) == ShaTasks(a) + [];
    assert ShaTasks(a) + [] == ShaTasks(a);
  }

  /** The detail fetch of this sha gave nothing to add: no answer, a body
      that is not an object, no `stats` key, a `stats` value that is not an
      object, or a stats object with neither `additions` nor `deletions`. */
  predicate StatsFetchFailed(details: (string, string) -> Response<CommitDetail>, fullName: string, sha: string) {
    var s := CommitStats(details(fullName, sha));
    s.StatsNotObject? || (s.additions.None? && s.deletions.None?)
  }

  lemma {:induction false} FailedStatsSumToNothing(details: (string, string) -> Response<CommitDetail>, fullName: string, shas: seq<string>)
    requires forall s :: s in shas ==> StatsFetchFailed(details, fullName, s)
    ensures SumStats(details, fullName, shas) == NoLines
    decreases |shas|
  {
    if |shas| > 0 {
      assert shas[0] in shas;
      assert ShaLines(details, fullName, shas[0]) == NoLines;
      assert forall s :: s in shas[1..] ==> s in shas;
      FailedStatsSumToNothing(details, fullName, shas[1..]);
    }
  }

  /** When every commit's detail fetch fails or is malformed, the commits
      add no lines at all (and, by `ProcessRepo`'s contract, the repository
      still succeeds). */
  lemma FailedStatsAddNoLines(details: (string, string) -> Response<CommitDetail>, fullName: string, commits: seq<CommitItem>)
    requires forall i :: 0 <= i < |commits| && HasSha(commits[i]) ==>
               StatsFetchFailed(details, fullName, commits[i].sha.value)
    ensures CommitLines(details, fullName, commits) == NoLines
  {
    FailedStatsSumToNothing(details, fullName, ShaTasks(commits));
  }

  /** Replacing every commit-detail response changes neither whether the
      repository succeeds nor its commit, issue and pull counts: a stats fetch
      never fails the repository. */
  lemma StatsNeverFailRepository(u: Upstream, details: (string, string) -> Response<CommitDetail>,
                                 fullName: string, username: string, params: Selection)
    ensures ProcessRepo(u.(commitDetail := details), fullName, username, params).Ok?
        == ProcessRepo(u, fullName, username, params).Ok?
    ensures ProcessRepo(u, fullName, username, params).Ok? ==>
              var p, q := ProcessRepo(u.(commitDetail := details), fullName, username, params).value,
                          ProcessRepo(u, fullName, username, params).value;
              p.commits == q.commits && p.issues == q.issues && p.pulls == q.pulls
  {
  }

  /** A category whose flag is set to false leaves its fields at 0. */
  lemma DisabledCategoryUntouched(u: Upstream, fullName: string, username: string, params: Selection, c: Category)
    requires !Enabled(params, Key(c))
    ensures ProcessRepo(u, fullName, username, params).Ok? ==>
              Untouched(ProcessRepo(u, fullName, username, params).value, c)
  {
  }

  /** Only the three flags matter: two selections that enable the same
      categories give the same outcome, so an absent flag and a flag set to
      true are interchangeable. */
  lemma SameFlagsSameOutcome(u: Upstream, fullName: string, username: string, p1: Selection, p2: Selection)
    requires forall c: Category :: Enabled(p1, Key(c)) == Enabled(p2, Key(c))
    ensures ProcessRepo(u, fullName, username, p1) == ProcessRepo(u, fullName, username, p2)
  {
    assert Enabled(p1, Key(Commits)) == Enabled(p2, Key(Commits));
    assert Enabled(p1, Key(Issues)) == Enabled(p2, Key(Issues));
    assert Enabled(p1, Key(Pulls)) == Enabled(p2, Key(Pulls));
  }

  /** A repository's aggregation does not read the organization listing. */
  lemma ProcessRepoIgnoresListing(u: Upstream, listing: string -> Response<seq<RepoItem>>,
                                  fullName: string, username: string, params: Selection)
    ensures ProcessRepo(u.(orgRepos := listing), fullName, username, params) == ProcessRepo(u, fullName, username, params)
  {
  }
}
