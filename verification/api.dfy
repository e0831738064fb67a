/** The front end's API client: where it sends requests, and the query
    parameters and bodies it builds. */
module Api {
  import opened Values

  const ApiPort := ":8000"
  const LocalApi := "http://localhost:8000"

  /** `getApiBaseUrl()`: `configured` is `VITE_API_BASE_URL` ("" when unset) and
      `hostname` the page's host name. A configured address wins; a page served
      from another machine talks to port 8000 of that machine; a page served
      from this machine talks to localhost. */
  function ApiBaseUrl(configured: string, hostname: string): (url: string)
    ensures configured != "" ==> url == configured
    ensures configured == "" && hostname != "localhost" && hostname != "127.0.0.1" ==>
      url == "http://" + hostname + ApiPort
    ensures configured == "" && (hostname == "localhost" || hostname == "127.0.0.1") ==> url == LocalApi
  {
    if configured != "" then configured
    else if hostname != "localhost" && hostname != "127.0.0.1" then "http://" + hostname + ApiPort
    else LocalApi
  }

  /** Without a configured address the URL names port 8000 over http, and it is
      the localhost address exactly when the page is served from this machine. */
  lemma BaseUrlFallback(hostname: string)
    ensures var url := ApiBaseUrl("", hostname);
      |url| >= 12 && url[..7] == "http://" && url[|url| - 5..] == ApiPort
    ensures ApiBaseUrl("", hostname) == LocalApi <==> hostname == "localhost" || hostname == "127.0.0.1"
  {
    var url := ApiBaseUrl("", hostname);
    if hostname != "localhost" && hostname != "127.0.0.1" {
      assert url == "http://" + hostname + ApiPort;
      assert url[7..|url| - 5] == hostname;
      assert LocalApi[7..|LocalApi| - 5] == "localhost";
    }
  }

  /** The filters `listJobs` forwards when they are truthy, in its order. */
  const OptionalFilters: seq<string> :=
    ["status", "scan_run_id", "date_from", "date_to", "source", "min_match_score", "sort_by", "sort_order"]

  /** The optional filters `listJobs` forwards: the truthy ones, unchanged. */
  function ForwardedFilters(filters: Document): (f: Document)
    ensures forall k :: k in f <==> k in OptionalFilters && JsTruthy(Get(filters, k, Null))
    ensures forall k :: k in f ==> k in filters && f[k] == filters[k]
  {
    map k | k in OptionalFilters && JsTruthy(Get(filters, k, Null)) :: filters[k]
  }

  /** Neither fixed parameter is one of the optional filters. */
  lemma FixedNotOptional()
    ensures "clerk_user_id" !in OptionalFilters && "limit" !in OptionalFilters
  {
  }

  /** The query parameters of `listJobs(clerkUserId, filters)`. */
  function ListJobsParams(clerkUserId: Value, filters: Document): (p: Document)
    ensures "clerk_user_id" in p && p["clerk_user_id"] == clerkUserId
    ensures "limit" in p && p["limit"] == JsOr(Get(filters, "limit", Null), Int(50))
    ensures forall k :: k in OptionalFilters ==> (k in p <==> JsTruthy(Get(filters, k, Null)))
    ensures forall k :: k in OptionalFilters && k in p ==> k in filters && p[k] == filters[k]
    ensures forall k :: k in p ==> k == "clerk_user_id" || k == "limit" || k in OptionalFilters
  {
    FixedNotOptional();
    ForwardedFilters(filters)["clerk_user_id" := clerkUserId]["limit" := JsOr(Get(filters, "limit", Null), Int(50))]
  }

  /** A limit of 0 asks for 50 jobs, and a minimum score of 0 sends no minimum
      at all, so the service applies none. */
  lemma ZeroFiltersDropped(clerkUserId: Value, filters: Document)
    requires "limit" in filters && filters["limit"] == Int(0)
    requires "min_match_score" in filters && filters["min_match_score"] == Real(0.0)
    ensures var p := ListJobsParams(clerkUserId, filters);
      p["limit"] == Int(50) && "min_match_score" !in p
  {
    assert "min_match_score" in OptionalFilters;
  }

  /** An HTTP request: its method, its path under the base URL and its JSON body. */
  datatype Request = Request(verb: string, path: string, body: Document)

  /** `updateStatus(jobId, status)`: a PATCH of the job's status resource whose
      body holds the status and nothing else. */
  function UpdateStatusRequest(jobId: string, status: Value): (r: Request)
    ensures r.verb == "PATCH"
    ensures r.path == "/api/jobs/" + jobId + "/status"
    ensures r.body.Keys == {"status"} && r.body["status"] == status
  {
    Request("PATCH", "/api/jobs/" + jobId + "/status", map["status" := status])
  }
}
