/** The remote data client: the JSON shapes the service reads from the GitHub
    REST API, the responses it receives, and the status check that turns a
    response into a value or an error. Every HTTP request is replaced by an
    input: a field of `Upstream` maps the request's parameters to its response. */
module GitHubApi {
  import opened Wrappers

  /** The only status `fetch_json` accepts. */
  const OkStatus: int := 200

  /** Prefix of the detail carried by the raised HTTP exception. */
  const ErrorPrefix: string := "GitHub API error: "

  /** Why a list fetch raised: a non-200 answer, or a request that raised
      before any status was checked. */
  datatype ApiError = HttpError(status: int, detail: string) | RequestRaised

  /** One HTTP exchange: an answer with its status, raw text and JSON body
      decoded into `T`, or `NoResponse` when the request raised (the transport
      failed, or the body was not JSON). */
  datatype Response<T> = Answered(status: int, text: string, json: T) | NoResponse

  /** An element of the organization's repository listing. */
  datatype RepoItem = RepoItem(name: string)

  /** An element of a repository's commit listing; `sha` may be absent or null. */
  datatype CommitItem = CommitItem(sha: Option<string>)

  /** An element of the issues listing; the API also lists pull requests there,
      marked by a `pull_request` key. */
  datatype IssueItem = IssueItem(hasPullRequestKey: bool)

  /** An element of the pull-request listing; only the count is used. */
  datatype PullItem = PullItem(number: nat)

  /** The value under a commit's `stats` key: an object whose `additions` and
      `deletions` fields may be missing, or some other JSON value. */
  datatype StatsValue = StatsObject(additions: Option<nat>, deletions: Option<nat>) | StatsNotObject

  /** The body of a single-commit response: an object (with or without a
      `stats` key), or a JSON value `.get` cannot be called on, such as a list. */
  datatype CommitDetail = DetailObject(stats: Option<StatsValue>) | DetailNotObject

  /** The state of the remote API during one request: one response per URL,
      keyed by the parameters the URL is built from. */
  datatype Upstream = Upstream(
    orgRepos: string -> Response<seq<RepoItem>>,                // organization
    commits: (string, string) -> Response<seq<CommitItem>>,     // (full name, author)
    commitDetail: (string, string) -> Response<CommitDetail>,   // (full name, sha)
    issues: (string, string) -> Response<seq<IssueItem>>,       // (full name, creator)
    pulls: (string, string) -> Response<seq<PullItem>>)         // (full name, creator)

  /** The response is one `fetch_json` accepts. */
  predicate Accepted<T>(r: Response<T>) {
    r.Answered? && r.status == OkStatus
  }

  /** `fetch_json` / `fetch_json_with_client`: the decoded body of a 200
      answer, otherwise the raised error. */
  function FetchJson<T>(r: Response<T>): (res: Result<T, ApiError>)
    ensures res.Ok? <==> Accepted(r)
    ensures res.Ok? ==> res.value == r.json
    ensures r.Answered? && r.status != OkStatus ==>
              res == Err(HttpError(r.status, ErrorPrefix + r.text))
    ensures r.NoResponse? ==> res == Err(RequestRaised)
  {
    match r
    case NoResponse => Err(RequestRaised)
    case Answered(status, text, json) =>
      if status != OkStatus then Err(HttpError(status, ErrorPrefix + text)) else Ok(json)
  }
}
