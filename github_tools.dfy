/**
 * The GitHub tools: the requests they send to the REST API, and the checks that refuse a
 * call before any request is sent. The HTTP exchange itself (and the error text of an HTTP
 * failure) is not modelled: an operation ends either with its refusal message or with the
 * request it would send. `os.getenv("GITHUB_TOKEN")` is a parameter, `None` when unset.
 */
module GithubTools {
  import opened Seqs
  import opened Text
  import opened JsonValue

  datatype Request = Request(
    verb: string,
    url: string,
    headers: map<string, string>,
    query: map<string, string>,
    payload: map<string, string>)

  /** How a call ends before the network: refused with a message, or sending a request. */
  datatype Outcome = Refused(error: string) | Sends(request: Request)

  const ApiRepos := "https://api.github.com/repos/"

  const CreateNeedsToken := "GitHub token is required to create issues"
  const UpdateNeedsToken := "GitHub token is required to update issues"
  const BadState := "state must be either 'open' or 'closed'"
  const NoField := "At least one field (state, title, or body) must be provided"

  function RepoUrl(owner: string, repo: string): string
  {
    ApiRepos + owner + "/" + repo
  }

  /** The headers of the read calls: the token header only when a token is set. */
  function AuthHeaders(token: Option<string>): (r: map<string, string>)
    ensures r.Keys <= {"Authorization"}
    ensures "Authorization" in r <==> Given(token)
    ensures Given(token) ==> r["Authorization"] == "token " + token.value
  {
    if Given(token) then map["Authorization" := "token " + token.value] else map[]
  }

  /** `get_github_repo`. */
  function GetRepo(owner: string, repo: string, token: Option<string>): Request
  {
    Request("GET", RepoUrl(owner, repo), AuthHeaders(token), map[], map[])
  }

  /** `list_github_issues`. */
  function ListIssues(owner: string, repo: string, state: string, token: Option<string>): Request
  {
    Request("GET", RepoUrl(owner, repo) + "/issues", AuthHeaders(token), map["state" := state], map[])
  }

  /** `list_github_prs`. */
  function ListPulls(owner: string, repo: string, state: string, token: Option<string>): Request
  {
    Request("GET", RepoUrl(owner, repo) + "/pulls", AuthHeaders(token), map["state" := state], map[])
  }

  /** `create_github_issue`: a token is required; the body is sent only when it is non-empty. */
  function CreateIssue(owner: string, repo: string, title: string, body: Option<string>, token: Option<string>): (r: Outcome)
    ensures r.Refused? <==> !Given(token)
    ensures r.Refused? ==> r.error == CreateNeedsToken
    ensures r.Sends? ==>
      var q := r.request;
      q.verb == "POST" && q.url == RepoUrl(owner, repo) + "/issues"
      && q.headers == map["Authorization" := "token " + token.value]
      && q.payload.Keys == (if Given(body) then {"title", "body"} else {"title"})
      && q.payload["title"] == title
      && (Given(body) ==> q.payload["body"] == body.value)
  {
    if !Given(token) then Refused(CreateNeedsToken)
    else
      var payload := map["title" := title];
      var payload := if Given(body) then payload["body" := body.value] else payload;
      Sends(Request("POST", RepoUrl(owner, repo) + "/issues", map["Authorization" := "token " + token.value], map[], payload))
  }

  /** A state `update_github_issue` accepts: none, empty, or one of the two issue states. */
  predicate StateAccepted(state: Option<string>)
  {
    !Given(state) || state.value == "open" || state.value == "closed"
  }

  /** The fields of an update that are sent: exactly the non-empty ones among state, title and body. */
  function UpdateFields(state: Option<string>, title: Option<string>, body: Option<string>): (r: map<string, string>)
    ensures "state" in r <==> Given(state)
    ensures "title" in r <==> Given(title)
    ensures "body" in r <==> Given(body)
    ensures r.Keys <= {"state", "title", "body"}
    ensures Given(state) ==> r["state"] == state.value
    ensures Given(title) ==> r["title"] == title.value
    ensures Given(body) ==> r["body"] == body.value
  {
    var a: map<string, string> := if Given(state) then map["state" := state.value] else map[];
    var b := if Given(title) then a["title" := title.value] else a;
    if Given(body) then b["body" := body.value] else b
  }

  /**
   * `update_github_issue`: the token is checked first, then an invalid state, then the
   * presence of at least one field; only then is the PATCH sent, carrying exactly the given
   * fields.
   */
  function UpdateIssue(owner: string, repo: string, number: int,
                       state: Option<string>, title: Option<string>, body: Option<string>,
                       token: Option<string>): (r: Outcome)
  {
    if !Given(token) then Refused(UpdateNeedsToken)
    else if !StateAccepted(state) then Refused(BadState)
    else
      var payload := UpdateFields(state, title, body);
      if payload == map[] then Refused(NoField)
      else
        Sends(Request("PATCH", RepoUrl(owner, repo) + "/issues/" + IntToString(number),
                      map["Authorization" := "token " + token.value], map[], payload))
  }

  /** `create_github_issue` as it runs: the headers and the payload are filled one field at a time. */
  method CreateGithubIssue(owner: string, repo: string, title: string, body: Option<string>, token: Option<string>)
    returns (r: Outcome)
    ensures r == CreateIssue(owner, repo, title, body, token)
  {
    if !Given(token) {
      return Refused(CreateNeedsToken);
    }
    var headers := map["Authorization" := "token " + token.value];
    var data := map["title" := title];
    if Given(body) {
      data := data["body" := body.value];
    }
    r := Sends(Request("POST", RepoUrl(owner, repo) + "/issues", headers, map[], data));
  }

  /** `update_github_issue` as it runs. */
  method UpdateGithubIssue(owner: string, repo: string, number: int,
                           state: Option<string>, title: Option<string>, body: Option<string>,
                           token: Option<string>)
    returns (r: Outcome)
    ensures r == UpdateIssue(owner, repo, number, state, title, body, token)
  {
    if !Given(token) {
      return Refused(UpdateNeedsToken);
    }
    var headers := map["Authorization" := "token " + token.value];
    var data: map<string, string> := map[];
    if Given(state) {
      if state.value != "open" && state.value != "closed" {
        return Refused(BadState);
      }
      data := data["state" := state.value];
    }
    if Given(title) {
      data := data["title" := title.value];
    }
    if Given(body) {
      data := data["body" := body.value];
    }
    if data == map[] {
      return Refused(NoField);
    }
    r := Sends(Request("PATCH", RepoUrl(owner, repo) + "/issues/" + IntToString(number), headers, map[], data));
  }

  // ---------------------------------------------------------------------------
  // Properties
  // ---------------------------------------------------------------------------

  /** The read calls send the token header exactly when a token is set, and the listing calls pass the state through. */
  lemma ReadCallsAuthorizeOnlyWithToken(owner: string, repo: string, state: string, token: Option<string>)
    ensures var reqs := [GetRepo(owner, repo, token), ListIssues(owner, repo, state, token), ListPulls(owner, repo, state, token)];
      forall q :: q in reqs ==> q.verb == "GET" && ("Authorization" in q.headers <==> Given(token)) && q.payload == map[]
    ensures ListIssues(owner, repo, state, token).query["state"] == state
    ensures ListPulls(owner, repo, state, token).query["state"] == state
  {
  }

  /**
   * The order of the checks of `update_github_issue`: without a token nothing else is looked
   * at; an invalid non-empty state is refused even when no other field is given; the
   * missing-field error comes last.
   */
  lemma UpdateCheckOrder(owner: string, repo: string, number: int,
                         state: Option<string>, title: Option<string>, body: Option<string>,
                         token: Option<string>)
    ensures var r := UpdateIssue(owner, repo, number, state, title, body, token);
      (!Given(token) ==> r == Refused(UpdateNeedsToken))
      && (Given(token) && !StateAccepted(state) ==> r == Refused(BadState))
      && (Given(token) && StateAccepted(state) ==>
            (r == Refused(NoField) <==> !Given(state) && !Given(title) && !Given(body)))
  {
    if Given(token) && StateAccepted(state) && !Given(state) && !Given(title) && !Given(body) {
      var p := UpdateFields(state, title, body);
      assert p.Keys == {};
    }
  }

  /**
   * A PATCH is sent exactly when the token is set, the state is acceptable and some field is
   * non-empty; it carries the token header and exactly the non-empty fields, so an empty
   * string is never sent as a value.
   */
  lemma UpdateSendsExactlyGivenFields(owner: string, repo: string, number: int,
                                      state: Option<string>, title: Option<string>, body: Option<string>,
                                      token: Option<string>)
    ensures var r := UpdateIssue(owner, repo, number, state, title, body, token);
      (r.Sends? <==> Given(token) && StateAccepted(state) && (Given(state) || Given(title) || Given(body)))
      && (r.Sends? ==>
            r.request.verb == "PATCH"
            && r.request.url == RepoUrl(owner, repo) + "/issues/" + IntToString(number)
            && r.request.headers == map["Authorization" := "token " + token.value]
            && r.request.payload == UpdateFields(state, title, body)
            && forall k :: k in r.request.payload ==> r.request.payload[k] != "")
  {
    UpdateCheckOrder(owner, repo, number, state, title, body, token);
    var p := UpdateFields(state, title, body);
    if Given(state) { assert "state" in p; }
    else if Given(title) { assert "title" in p; }
    else if Given(body) { assert "body" in p; }
    forall k | k in p ensures p[k] != "" {
      assert k in {"state", "title", "body"};
    }
  }

  /** Closing an issue with a token sends exactly `{"state": "closed"}`. */
  lemma ExpectedCloseIssue()
    ensures var r := UpdateIssue("testuser", "test-repo", 1, Some("closed"), None, None, Some("test_token"));
      r.Sends? && r.request.payload == map["state" := "closed"]
      && r.request.headers["Authorization"] == "token test_token"
  {
    var p := UpdateFields(Some("closed"), None, None);
    assert "state" in p && p.Keys <= {"state", "title", "body"};
    assert p.Keys == {"state"};
  }

  /** Without a token the update is refused, whatever the fields. */
  lemma ExpectedUpdateWithoutToken()
    ensures UpdateIssue("testuser", "test-repo", 1, Some("closed"), None, None, None).error == UpdateNeedsToken
  {
  }

  /** The state "invalid" is refused with the state message. */
  lemma ExpectedInvalidState()
    ensures UpdateIssue("testuser", "test-repo", 1, Some("invalid"), None, None, Some("test_token")).error == BadState
  {
    assert "invalid"[0] != "open"[0] && "invalid"[0] != "closed"[0];
  }

  /** An update with no field is refused with the missing-field message. */
  lemma ExpectedNoFields()
    ensures UpdateIssue("testuser", "test-repo", 1, None, None, None, Some("test_token")).error == NoField
  {
    UpdateCheckOrder("testuser", "test-repo", 1, None, None, None, Some("test_token"));
  }
}
