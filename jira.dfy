/**
 * The Jira helpers: the Basic authentication header, the choice of JQL query,
 * the checks made before any request, the normalisation of the issues in a
 * search response into tickets, and the error reports of a failed request.
 *
 * The HTTP exchange itself is the parameter `fetch`: it answers a prepared
 * request with the decoded response body, or with the way the request failed.
 */
module Jira {
  import opened Wrappers
  import opened Text
  import opened Codecs
  import Base64
  import opened JsonData

  /** An environment setting is usable when present and non-empty. */
  predicate IsSet(v: Option<string>) {
    v.Some? && v.value != ""
  }

  // ---------------------------------------------------------------------------
  // Authentication and query

  /** `_get_auth_header`: `Basic` followed by the Base64 of the UTF-8 bytes of
      `email:token`, when both are set. */
  function AuthHeader(email: Option<string>, token: Option<string>): Option<string> {
    if !IsSet(email) || !IsSet(token) then None
    else Some("Basic " + Base64.Encode(Utf8Encode(email.value + ":" + token.value)))
  }

  /** The header exists exactly when both credentials are set, and decoding what follows
      `Basic ` gives back `email:token`. */
  lemma AuthHeaderDecodes(email: Option<string>, token: Option<string>)
    ensures AuthHeader(email, token).Some? <==> IsSet(email) && IsSet(token)
    ensures AuthHeader(email, token).Some? ==>
              var h := AuthHeader(email, token).value;
              StartsWith(h, "Basic ")
              && Base64.Decode(h[6..]).Some?
              && Utf8Decode(Base64.Decode(h[6..]).value) == Some(email.value + ":" + token.value)
  {
    if IsSet(email) && IsSet(token) {
      var creds := email.value + ":" + token.value;
      var h := AuthHeader(email, token).value;
      assert h[6..] == Base64.Encode(Utf8Encode(creds));
      Base64.RoundTrip(Utf8Encode(creds));
      Utf8RoundTrip(creds);
    }
  }

  const UnboundedFallbackJql := "created >= -30d ORDER BY created DESC"

  /** The JQL query searched: the caller's, else the newest issues of the caller's or
      the configured project, else those created in the last 30 days. */
  function SelectJql(jql: Option<string>, projectKey: Option<string>, defaultKey: string): string {
    if IsSet(jql) then jql.value
    else
      var key := if IsSet(projectKey) then projectKey.value else defaultKey;
      if key != "" then "project = " + key + " ORDER BY created DESC" else UnboundedFallbackJql
  }

  /** A given query is used verbatim; a project key given by the caller wins over the
      configured one; the date-bounded fallback is used only when neither is set. */
  lemma SelectJqlChoice(jql: Option<string>, projectKey: Option<string>, defaultKey: string)
    ensures IsSet(jql) ==> SelectJql(jql, projectKey, defaultKey) == jql.value
    ensures !IsSet(jql) && IsSet(projectKey) ==>
              SelectJql(jql, projectKey, defaultKey) == "project = " + projectKey.value + " ORDER BY created DESC"
    ensures !IsSet(jql) && !IsSet(projectKey) && defaultKey != "" ==>
              SelectJql(jql, projectKey, defaultKey) == "project = " + defaultKey + " ORDER BY created DESC"
    ensures !IsSet(jql) ==>
              (SelectJql(jql, projectKey, defaultKey) == UnboundedFallbackJql <==> !IsSet(projectKey) && defaultKey == "")
  {
    if !IsSet(jql) {
      var key := if IsSet(projectKey) then projectKey.value else defaultKey;
      if key != "" {
        var q := "project = " + key + " ORDER BY created DESC";
        assert q[0] == 'p' && UnboundedFallbackJql[0] == 'c';
      }
    }
  }

  // ---------------------------------------------------------------------------
  // Searching

  datatype Config = Config(domain: Option<string>, email: Option<string>, apiToken: Option<string>,
                           projectKey: string)

  /** The request `search_jira_tickets` posts. */
  datatype Request = Request(url: string, authorization: string, jql: string, maxResults: int)

  /** The decoded response body: its `issues` (objects) and its `total`, if present. */
  datatype SearchResponse = SearchResponse(issues: seq<map<string, Json>>, total: Option<Json>)

  /** How a request fails: an HTTP error status, with the rendered `errorMessages` of
      the error body when it could be read, or any other exception's text. */
  datatype FetchError = HttpStatus(code: int, detail: Option<string>) | Raised(message: string)

  /** The error reported for a failed request. */
  function FetchErrorMessage(e: FetchError): string {
    match e
    case HttpStatus(code, detail) =>
      "Jira API error: " + IntText(code) + (if detail.Some? then " - " + detail.value else "")
    case Raised(message) => "Error querying Jira: " + message
  }

  datatype Ticket = Ticket(key: Json, summary: Json, status: Json, priority: Json, assignee: Json,
                           issueType: Json, created: Json, updated: Json, url: string)

  datatype TicketSearch = TicketSearch(success: bool, tickets: seq<Ticket>, total: Json,
                                       error: Option<string>, jql: Option<string>)

  const DomainMissing := "JIRA_DOMAIN not configured"
  const CredentialsMissing := "Jira credentials not configured (JIRA_EMAIL and JIRA_API_TOKEN required)"

  function Failed(message: string): TicketSearch {
    TicketSearch(false, [], Num(0), Some(message), None)
  }

  /** The checks made before any request: the domain first, then the credentials. */
  function PrepareSearch(config: Config, jql: Option<string>, projectKey: Option<string>, maxResults: int)
    : Result<Request, string>
  {
    if !IsSet(config.domain) then Failure(DomainMissing)
    else match AuthHeader(config.email, config.apiToken)
      case None => Failure(CredentialsMissing)
      case Some(header) =>
        Success(Request("https://" + config.domain.value + "/rest/api/3/search/jql", header,
                        SelectJql(jql, projectKey, config.projectKey), maxResults))
  }

  /** `x.get(key) if isinstance(x, dict) else fallback` */
  function NameOf(v: Json, fallback: string): Json {
    if v.Obj? then Get(v.members, "name", Null) else Str(fallback)
  }

  /** The ticket made of one issue, or None when its `fields` is a truthy non-object
      (reading from it raises, and the issue is skipped). */
  function Normalize(domain: string, issue: map<string, Json>): Option<Ticket> {
    var fields := Or(Get(issue, "fields", Obj(map[])), Obj(map[]));
    if !fields.Obj? then None
    else
      var f := fields.members;
      var assignee := Get(f, "assignee", Null);
      Some(Ticket(
        Or(Get(issue, "key", Null), Str("N/A")),
        Or(Get(f, "summary", Null), Str("No summary")),
        NameOf(Or(Get(f, "status", Null), Obj(map[])), "Unknown"),
        NameOf(Or(Get(f, "priority", Null), Obj(map[])), "None"),
        if Truthy(assignee) && assignee.Obj? then Get(assignee.members, "displayName", Null) else Str("Unassigned"),
        NameOf(Or(Get(f, "issuetype", Null), Obj(map[])), "Unknown"),
        Or(Get(f, "created", Null), Str("N/A")),
        Or(Get(f, "updated", Null), Str("N/A")),
        "https://" + domain + "/browse/" + Show(Get(issue, "key", Null))))
  }

  /** The tickets of the issues that normalise, in order. */
  function Tickets(domain: string, issues: seq<map<string, Json>>): seq<Ticket> {
    if |issues| == 0 then []
    else
      var front := Tickets(domain, issues[..|issues| - 1]);
      match Normalize(domain, issues[|issues| - 1])
      case None => front
      case Some(t) => front + [t]
  }

  /** An issue is kept unless its `fields` is a truthy non-object; a kept ticket falls back
      to "N/A", "No summary" and "Unassigned", and links to the issue's raw key. */
  lemma NormalizeDefaults(domain: string, issue: map<string, Json>)
    ensures var fields := Get(issue, "fields", Null);
            Normalize(domain, issue).None? <==> Truthy(fields) && !fields.Obj?
    ensures Normalize(domain, issue).Some? ==>
              var t := Normalize(domain, issue).value;
              var f := if "fields" in issue && issue["fields"].Obj? then issue["fields"].members else map[];
              (!Truthy(Get(issue, "key", Null)) ==> t.key == Str("N/A"))
              && (!Truthy(Get(f, "summary", Null)) ==> t.summary == Str("No summary"))
              && (!(Truthy(Get(f, "assignee", Null)) && Get(f, "assignee", Null).Obj?) ==> t.assignee == Str("Unassigned"))
              && t.url == "https://" + domain + "/browse/" + Show(Get(issue, "key", Null))
  {
  }

  /** At most one ticket per issue, and one for every issue when none has a malformed
      `fields`. */
  lemma {:induction false} TicketsCount(domain: string, issues: seq<map<string, Json>>)
    ensures |Tickets(domain, issues)| <= |issues|
    ensures (forall i :: 0 <= i < |issues| ==> Normalize(domain, issues[i]).Some?) ==>
              |Tickets(domain, issues)| == |issues|
  {
    if |issues| > 0 {
      TicketsCount(domain, issues[..|issues| - 1]);
    }
  }

  /** The issue loop of `search_jira_tickets`. */
  method NormalizeIssues(domain: string, issues: seq<map<string, Json>>) returns (tickets: seq<Ticket>)
    ensures tickets == Tickets(domain, issues)
  {
    tickets := [];
    var i := 0;
    while i < |issues|
      invariant i <= |issues|
      invariant tickets == Tickets(domain, issues[..i])
    {
      assert issues[..i + 1][..i] == issues[..i];
      var ticket := Normalize(domain, issues[i]);
      if ticket.None? {
        i := i + 1;
        continue;
      }
      tickets := tickets + [ticket.value];
      i := i + 1;
    }
    assert issues[..i] == issues;
  }

  /** What `search_jira_tickets` answers, given what the request returns. */
  function SearchOutcome(config: Config, jql: Option<string>, projectKey: Option<string>, maxResults: int,
                         fetch: Request -> Result<SearchResponse, FetchError>): TicketSearch
  {
    match PrepareSearch(config, jql, projectKey, maxResults)
    case Failure(message) => Failed(message)
    case Success(request) =>
      match fetch(request)
      case Failure(e) => Failed(FetchErrorMessage(e))
      case Success(response) =>
        TicketSearch(true, Tickets(config.domain.value, response.issues), response.total.GetOr(Num(0)),
                     None, Some(request.jql))
  }

  /** No request is made without a domain and both credentials; a failed search reports
      no ticket and a total of 0. */
  lemma SearchPreconditions(config: Config, jql: Option<string>, projectKey: Option<string>, maxResults: int,
                            fetch: Request -> Result<SearchResponse, FetchError>)
    ensures !IsSet(config.domain) ==> SearchOutcome(config, jql, projectKey, maxResults, fetch) == Failed(DomainMissing)
    ensures IsSet(config.domain) && !(IsSet(config.email) && IsSet(config.apiToken)) ==>
              SearchOutcome(config, jql, projectKey, maxResults, fetch) == Failed(CredentialsMissing)
    ensures var r := SearchOutcome(config, jql, projectKey, maxResults, fetch);
            !r.success ==> r.tickets == [] && r.total == Num(0) && r.error.Some?
    ensures PrepareSearch(config, jql, projectKey, maxResults).Success? ==>
              PrepareSearch(config, jql, projectKey, maxResults).value.jql == SelectJql(jql, projectKey, config.projectKey)
    ensures PrepareSearch(config, jql, projectKey, maxResults).Success? ==>
              var r := SearchOutcome(config, jql, projectKey, maxResults, fetch);
              var answer := fetch(PrepareSearch(config, jql, projectKey, maxResults).value);
              (r.success <==> answer.Success?)
              && (answer.Failure? && answer.error.HttpStatus? ==> StartsWith(r.error.value, "Jira API error: "))
              && (answer.Failure? && answer.error.Raised? ==>
                    r.error.value == "Error querying Jira: " + answer.error.message)
  {
    AuthHeaderDecodes(config.email, config.apiToken);
  }

  /** `search_jira_tickets` */
  method SearchTickets(config: Config, jql: Option<string>, projectKey: Option<string>, maxResults: int,
                       fetch: Request -> Result<SearchResponse, FetchError>) returns (r: TicketSearch)
    ensures r == SearchOutcome(config, jql, projectKey, maxResults, fetch)
  {
    if !IsSet(config.domain) {
      return Failed(DomainMissing);
    }
    var authHeader := AuthHeader(config.email, config.apiToken);
    if authHeader.None? {
      return Failed(CredentialsMissing);
    }
    var query := SelectJql(jql, projectKey, config.projectKey);
    var request := Request("https://" + config.domain.value + "/rest/api/3/search/jql", authHeader.value, query, maxResults);
    match fetch(request) {
      case Failure(e) =>
        r := Failed(FetchErrorMessage(e));
      case Success(response) =>
        var tickets := NormalizeIssues(config.domain.value, response.issues);
        r := TicketSearch(true, tickets, response.total.GetOr(Num(0)), None, Some(query));
    }
  }
}
