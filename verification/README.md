# GitHub contribution aggregation — a Dafny model

This project models the reduction at the heart of the backend's GitHub
service (`app/Services/GitHubService.py`). The service counts one user's
contributions across every repository of the `Dijkstra-Edu` organization:
commits, lines added and deleted, issues and pull requests. It works in two
steps:

- **Per repository** (`process_repo`): three branches, each gated by a feature
  flag, list the user's commits, issues and pull requests. A flag missing from
  the selection counts as enabled. The commit count is the length of the
  commit listing. Lines added and deleted are summed from each commit's detail
  `stats`, fetched only for commits whose `sha` is truthy. A detail fetch never
  raises: whatever goes wrong gives `{}` and counts as 0. Issues are the listed
  items without a `pull_request` key. A non-200 answer to any enabled listing
  raises, and the repository's whole partial result is lost.
- **Per organization** (`count_user_contributions`): a non-200 answer to the
  repository listing is fatal. Otherwise every repository is aggregated.
  Failures are kept as values, and the successful partial results are added
  field by field into a report that echoes the username and organization.
  The two entry points fix the organization to `Dijkstra-Edu`.
  `getAllGitHubData` enables all three categories.

Every HTTP request is an input. A field of `GitHubApi.Upstream` maps the
request's parameters to a `Response`. The parameters are the organization,
the pair (repository full name, user) or the pair (repository full name, sha).
A `Response` is either an answer (status, raw text and decoded JSON body) or
`NoResponse`, meaning the request raised. The concurrent fan-out becomes a
sequential map over the repositories followed by a fold.
`OrgAggregation.OutcomeOrderIrrelevant` shows that the order of the outcomes
cannot change the totals.

Modules:
- `Wrappers`: `Option` for absent JSON fields and `Result` for calls that may raise.
- `GitHubApi`: the JSON shapes, responses, the `Upstream` inputs and `FetchJson`.
- `RepoAggregation`: `process_repo`, `get_commit_stats` and the flag lookup.
- `OrgAggregation`: `count_user_contributions`, the report and the two entry points.
- `Scenarios`: a worked example with two repositories, one of which fails.

Two details of the code shape the model:
- A listing fetch fails on any status other than exactly 200
  (`app/Services/GitHubService.py:137`). A 201 or 204 answer is an error too.
- The single-commit fetch checks no status at all (`:141-147`). Any JSON
  object body is searched for `stats`, so an error body without that key
  contributes 0.

## Model

| member | source | states |
|---|---|---|
| `GitHubApi.FetchJson` | app/Services/GitHubService.py:135-139 | A list fetch yields the decoded body exactly when the answer's status is 200. Any other status raises an error carrying that status and the text prefixed by "GitHub API error: ". A request that raised stays an error. |
| `RepoAggregation.ShaTasks` | app/Services/GitHubService.py:109-115 | Details are fetched for exactly the shas of the commits whose sha is present and non-empty, and for no others. There is at most one fetch per commit, and one per commit exactly when every commit has a sha. |
| `RepoAggregation.CommitStats` | app/Services/GitHubService.py:141-147 | Fetching a commit's stats never fails. A `stats` value present in an object body is returned as it is, whatever the status. No answer, a body that is not an object, or a missing `stats` key all yield the empty object. |
| `RepoAggregation.StatsLines` | app/Services/GitHubService.py:118-121 | A stats value that is not an object adds nothing. An object adds its `additions` and `deletions`, and a missing field adds 0 for that field. |
| `RepoAggregation.CountNonPull` | app/Services/GitHubService.py:124-126 | The issue count is the number of occurrences of items without a `pull_request` key in the listing, so it is at most the number of listed items. It equals that number exactly when no item has a `pull_request` key, and it is 0 exactly when every item has one. |
| `RepoAggregation.ProcessRepo` | app/Services/GitHubService.py:94-133 | A repository succeeds exactly when every enabled listing is answered with 200. When the commits listing is refused, the error is that listing's. On success the commits count is the listing's length, including sha-less items. Additions and deletions are the stats sums, issues are the non-PR count and pulls the listing length. Each field is 0 when its flag is off. |
| `RepoAggregation.ShalessCommitAddsNoLines` | app/Services/GitHubService.py:107-115 | Inserting a commit without a sha anywhere in the listing leaves added and deleted lines unchanged. The listing, and so the commit count, grows by one. |
| `RepoAggregation.FailedStatsAddNoLines` | app/Services/GitHubService.py:117-121 | Suppose every commit's detail fetch gave nothing to add: no answer, a non-object body, no `stats` key, a `stats` value that is not an object, or a stats object with neither field. Then the commits add no lines. |
| `RepoAggregation.StatsNeverFailRepository` | app/Services/GitHubService.py:141-147 | Replacing every commit-detail response changes neither whether the repository succeeds nor its commit, issue and pull counts. |
| `RepoAggregation.ProcessRepoIgnoresListing` | app/Services/GitHubService.py:94-133 | A repository's aggregation reads only its own commit, commit-detail, issue and pull responses. Changing the organization's repository listing does not change it. |
| `RepoAggregation.DisabledCategoryUntouched` | app/Services/GitHubService.py:95-103 | A category whose flag is false leaves its fields at 0 in a successful partial result. For commits that covers the commit count and both line counts. |
| `RepoAggregation.SameFlagsSameOutcome` | app/Services/GitHubService.py:103-128 | Only the three flags matter, read with `True` as the default. Two selections that enable the same categories give identical outcomes, so an absent flag acts exactly like one set to true. |
| `OrgAggregation.RepoOutcomes` | app/Services/GitHubService.py:68-74 | There is one outcome per listed repository, in listing order. Each is the aggregation of `org/name`. |
| `OrgAggregation.Succeeded` | app/Services/GitHubService.py:76-77 | The filtered list is never longer than its input, and it is exactly as long when every repository succeeded. `SucceededCounts` states which elements it keeps. |
| `OrgAggregation.Contributions` | app/Services/GitHubService.py:57-92 | The call fails exactly when the repository listing is not answered with 200, and then with that listing's error. Otherwise the report echoes the username and organization. A listing of zero repositories gives all totals 0. |
| `OrgAggregation.FoldOutcomes` | app/Services/GitHubService.py:61-82 | The loop over the gathered results returns the field-wise sum of the successful partial results. Failed results are skipped. |
| `OrgAggregation.CountUserContributions` | app/Services/GitHubService.py:57-92 | The imperative aggregation returns exactly the report the declarative definition gives. |
| `OrgAggregation.GetAllGitHubData` | app/Services/GitHubService.py:25-27 | A report from this entry point always names organization `Dijkstra-Edu` and echoes the username. |
| `OrgAggregation.GetGitHubDataWithSearchParams` | app/Services/GitHubService.py:29-30 | A report names organization `Dijkstra-Edu` and echoes the username. This entry point fails exactly when `getAllGitHubData` would fail. |
| `OrgAggregation.DefaultSelectionEnablesAll` | app/Services/GitHubService.py:26 | The default selection enables commits, issues and pulls. |
| `OrgAggregation.NoFalseFlagIsAllData` | app/Services/GitHubService.py:25-30 | Search parameters that set no flag to false give exactly `getAllGitHubData`'s result. An empty selection is one such case. |
| `OrgAggregation.RemoveOutcome` | app/Services/GitHubService.py:76-82 | The totals are the totals without one repository plus that repository's contribution. The contribution is its partial result if it succeeded and nothing otherwise. |
| `OrgAggregation.FailedRepositoryContributesNothing` | app/Services/GitHubService.py:74-82 | A repository whose aggregation failed changes no total. This holds even when some of its branches had already counted. |
| `OrgAggregation.FailedRepositoryDropped` | app/Services/GitHubService.py:68-82 | Given an accepted listing, a repository whose aggregation fails can be removed from the listing without changing the report. The report is the same as if that repository did not exist. |
| `OrgAggregation.SucceededCounts` | app/Services/GitHubService.py:76-77 | The filter keeps exactly the successful outcomes. Each partial result occurs in it as often as an `Ok` carrying it occurs among the outcomes, and it is in the filter exactly when such an `Ok` is. |
| `OrgAggregation.SucceededRepositoryCounted` | app/Services/GitHubService.py:76-82 | A repository that succeeded adds its whole partial result, field by field. |
| `OrgAggregation.OutcomeOrderIrrelevant` | app/Services/GitHubService.py:74-82 | Any two outcome lists that are permutations of each other give the same totals. |
| `OrgAggregation.TotalsUntouched` | app/Services/GitHubService.py:76-82 | Outcomes whose successes all leave a category at 0 total to 0 in that category. |
| `OrgAggregation.DisabledCategoryZero` | app/Services/GitHubService.py:94-131 | A category whose flag is false is 0 in the final report. For commits that is the commits, lines-added and lines-deleted totals. |
| `OrgAggregation.SameFlagsSameReport` | app/Services/GitHubService.py:57-92 | Two selections that enable the same categories give identical results for the whole organization. |
| `Scenarios.ExampleIssueCount` | app/Services/GitHubService.py:126 | Two listed issues, one carrying a `pull_request` key, count as one issue. |
| `Scenarios.ExampleLines` | app/Services/GitHubService.py:109-121 | Three commits, one without a sha, with stats +7/-2 and +3 (no `deletions` field), give 10 lines added and 2 deleted. |
| `Scenarios.ExampleSecondRepository` | app/Services/GitHubService.py:103-106 | A repository whose commit listing gets a 500 fails as a whole, although its issues and pulls would have been listed. |
| `Scenarios.ExampleReport` | app/Services/GitHubService.py:57-133 | The worked example gives the report alice / Dijkstra-Edu: 3 commits, 1 issue, 2 pulls, 10 lines added and 2 deleted. The failing repository contributes nothing. |

## Left out

- HTTP transport, URL construction and header construction are left out. Responses are inputs keyed by the parameters each URL is built from.
- The single-page cap (`per_page=100`) is left out. A listing is whatever the input holds, so the model neither reproduces nor corrects the undercount beyond 100 items.
- Token loading from the environment, the `Authorization` header and logging are left out. They are ambient configuration and side effects.
- `asyncio.gather` scheduling, cancellation and `BaseException` handling are left out. The repository tasks and commit-stat tasks become sequential maps, since they share no mutable state and are folded only after the barrier.
- Pydantic validation of `GitHubContributions` is left out. Its integer fields are `nat`s here.
- FastAPI's `HTTPException` is left out beyond its status code and detail text.
- JSON shapes beyond those the reduction reads are left out. None of these cases is represented:
  - a repository item without `name`. It raises `KeyError` outside the gather and fails the whole call.
  - a commit item that is not an object. `commit.get` raises and fails that repository.
  - an issue item that is not an object. A string or list item goes through `'pull_request' not in issue` as a substring or membership test without raising. Only a non-iterable item raises.
  - a present but non-numeric `additions` or `deletions`. Adding it raises and fails that repository.
  - a negative `additions` or `deletions`. The source adds it like any other number, so a total can shrink. Stats numbers are `nat` here.
- A 200 listing whose body is not JSON is represented as `NoResponse`. In the source the request raises too, with the same effect.
- `SearchParams` comes from `Entities`, which is not part of this model. Only its `searchParams` mapping is modelled.
- `OrgAggregation.FoldOutcomes` keeps the five running totals of the source in one `Partial` record rather than five variables. The arithmetic is the same.
