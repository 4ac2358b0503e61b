/** A worked example: user "alice", two repositories, the second of which
    cannot list its commits. */
module Scenarios {
  import opened Wrappers
  import opened GitHubApi
  import opened RepoAggregation
  import opened OrgAggregation

  const R1: string := "Dijkstra-Edu/r1"
  const R2: string := "Dijkstra-Edu/r2"
  const ExampleRepos: seq<RepoItem> := [RepoItem("r1"), RepoItem("r2")]
  const R1Commits: seq<CommitItem> := [CommitItem(Some("a")), CommitItem(Some("b")), CommitItem(None)]
  const ExampleIssuesList: seq<IssueItem> := [IssueItem(false), IssueItem(true)]
  const ExamplePulls: seq<PullItem> := [PullItem(1), PullItem(2)]

  function ExampleOrgRepos(org: string): Response<seq<RepoItem>> {
    Answered(200, "", ExampleRepos)
  }

  /** r1 lists three commits, one of them without a sha; r2 answers 500. */
  function ExampleCommits(repo: string, author: string): Response<seq<CommitItem>> {
    if repo == R1 then Answered(200, "", R1Commits) else Answered(500, "server error", [])
  }

  /** Commit "a" changed +7/-2; commit "b" +3 with no `deletions` field. */
  function ExampleDetail(repo: string, sha: string): Response<CommitDetail> {
    if sha == "a" then Answered(200, "", DetailObject(Some(StatsObject(Some(7), Some(2)))))
    else if sha == "b" then Answered(200, "", DetailObject(Some(StatsObject(Some(3), None))))
    else NoResponse
  }

  /** Every repository lists two issues, one of which is a pull request. */
  function ExampleIssues(repo: string, creator: string): Response<seq<IssueItem>> {
    Answered(200, "", ExampleIssuesList)
  }

  function ExamplePullsOf(repo: string, creator: string): Response<seq<PullItem>> {
    Answered(200, "", ExamplePulls)
  }

  const Example: Upstream := Upstream(ExampleOrgRepos, ExampleCommits, ExampleDetail, ExampleIssues, ExamplePullsOf)

  /** Only the commits "a" and "b" have their detail fetched. */
  lemma ExampleShas()
    ensures ShaTasks(R1Commits) == ["a", "b"]
  {
    assert R1Commits[1..] == [CommitItem(Some("b")), CommitItem(None)];
    assert R1Commits[1..][1..] == [CommitItem(None)];
    assert R1Commits[1..][1..][1..] == [];
  }

  /** Commit "b" has no `deletions` field: it deletes 0 lines. */
  lemma ExampleShaB()
    ensures ShaLines(ExampleDetail, R1, "b") == Lines(3, 0)
  {
    assert "b" != "a" by { assert "b"[0] != "a"[0]; }
    assert ExampleDetail(R1, "b") == Answered(200, "", DetailObject(Some(StatsObject(Some(3), None))));
  }

  lemma ExampleShaBSum()
    ensures SumStats(ExampleDetail, R1, ["b"]) == Lines(3, 0)
  {
    ExampleShaB();
    assert ["b"][1..] == [];
  }

  /** The two commits with a sha add +7/-2 and +3/-0. */
  lemma ExampleLines()
    ensures CommitLines(ExampleDetail, R1, R1Commits) == Lines(10, 2)
  {
    ExampleShas();
    ExampleShaBSum();
    assert ShaLines(ExampleDetail, R1, "a") == Lines(7, 2);
    assert ["a", "b"][1..] == ["b"];
  }

  /** Of two listed issues, one carrying a `pull_request` key, one is counted. */
  lemma ExampleIssueCount()
    ensures CountNonPull(ExampleIssuesList) == 1
  {
    assert ExampleIssuesList[1..] == [IssueItem(true)];
  }

  /** r1 succeeds with every category counted: the sha-less commit is
      counted but adds no lines. */
  lemma ExampleFirstRepository()
    ensures ProcessRepo(Example, R1, "alice", DefaultSelection) == Ok(Partial(3, 1, 2, 10, 2))
  {
    ExampleLines();
    ExampleIssueCount();
    DefaultSelectionEnablesAll();
    assert Enabled(DefaultSelection, Key(Commits)) && Enabled(DefaultSelection, Key(Issues)) && Enabled(DefaultSelection, Key(Pulls));
    assert Example.commits(R1, "alice") == Answered(200, "", R1Commits);
    assert Example.issues(R1, "alice") == Answered(200, "", ExampleIssuesList);
    assert Example.pulls(R1, "alice") == Answered(200, "", ExamplePulls);
    assert BranchesAccepted(Example, R1, "alice", DefaultSelection);
    var r := ProcessRepo(Example, R1, "alice", DefaultSelection);
    assert r.Ok?;
    assert r.value.commits == 3 && r.value.issues == 1 && r.value.pulls == 2;
    assert r.value.additions == 10 && r.value.deletions == 2;
  }

  /** r2 fails as a whole, although only its commit listing was refused. */
  lemma ExampleSecondRepository()
    ensures ProcessRepo(Example, R2, "alice", DefaultSelection).Err?
  {
    assert R2 != R1 by {
      assert R2[14] == '2' && R1[14] == '1';
    }
    DefaultSelectionEnablesAll();
    assert Enabled(DefaultSelection, Key(Commits));
    assert !Accepted(Example.commits(R2, "alice"));
  }

  /** The repository tasks are r1's and r2's, in that order. */
  lemma ExampleOutcomes()
    ensures RepoOutcomes(Example, Organization, "alice", DefaultSelection, ExampleRepos)
         == [ProcessRepo(Example, R1, "alice", DefaultSelection)] + [ProcessRepo(Example, R2, "alice", DefaultSelection)]
  {
    assert FullName(Organization, ExampleRepos[0].name) == R1;
    assert FullName(Organization, ExampleRepos[1].name) == R2;
  }

  /** Folding the two outcomes keeps r1's partial result and drops r2. */
  lemma ExampleTotals()
    ensures Totals(RepoOutcomes(Example, Organization, "alice", DefaultSelection, ExampleRepos)) == Partial(3, 1, 2, 10, 2)
  {
    var r1 := ProcessRepo(Example, R1, "alice", DefaultSelection);
    var r2 := ProcessRepo(Example, R2, "alice", DefaultSelection);
    ExampleOutcomes();
    ExampleFirstRepository();
    ExampleSecondRepository();
    TotalsSingleton(r1);
    TotalsSnoc([r1], r2);
    AddZero(Partial(3, 1, 2, 10, 2));
  }

  /** The report counts r1 alone: 3 commits (the sha-less one included),
      1 issue, 2 pulls, 10 lines added and 2 deleted; r2 adds nothing, not
      even the issues and pulls it did list. */
  lemma ExampleReport()
    ensures GetAllGitHubData(Example, "alice") == Ok(Report("alice", "Dijkstra-Edu", 3, 1, 2, 10, 2))
  {
    assert Example.orgRepos(Organization) == Answered(200, "", ExampleRepos);
    ExampleTotals();
  }
}
