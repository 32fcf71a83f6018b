/**
 * `fetchJobsFromApiProvider`: read a source's `apiConfig`, call its endpoint once with
 * the extra parameters and an optional bearer header, and map the `jobs` array of the
 * response into listings. The environment is a map passed in; the HTTP client is a
 * function from the request to the response body or a failure.
 */
module ApiJobProvider {
  import opened Wrappers
  import opened Json
  import opened Records

  /** One entry of the response's `jobs` array; every field may be missing. */
  datatype ApiJob = ApiJob(
    title: Option<string>,
    description: Option<string>,
    location: Option<string>,
    company: Option<string>,
    applyUrl: Option<string>)

  /** The response body `{ jobs?: [...] }`. */
  datatype ApiBody = ApiBody(jobs: Option<seq<ApiJob>>)

  /** `axios.get(endpoint, { params, headers })`. */
  datatype ApiRequest = ApiRequest(url: string, params: map<string, Json>, headers: map<string, string>)

  datatype ApiResponse = Responded(body: ApiBody) | RequestFailed(message: string)

  type ApiClient = ApiRequest -> ApiResponse

  /** `process.env`. */
  type Env = map<string, string>

  /** `ApiJobDTO`; the title is copied as it came, so it may be missing. */
  datatype ApiListing = ApiListing(
    title: Option<string>,
    description: string,
    location: string,
    companyName: Option<string>,
    applyUrl: Option<string>)

  const MissingEndpointMessage: string := "API config missing endpoint"
  const DefaultLocation: string := "Not specified"

  function EnvValue(env: Env, name: string): Option<string> {
    if name in env then Some(env[name]) else None
  }

  /** The API key: the environment entry `apiKeyEnvVar` names, when it names one. */
  function ApiKey(config: ApiConfig, env: Env): Option<string> {
    if Given(config.apiKeyEnvVar) then EnvValue(env, config.apiKeyEnvVar.value) else None
  }

  /** The request headers: at most an `Authorization` header, set only from a non-empty key. */
  function Headers(config: ApiConfig, env: Env): (h: map<string, string>)
    ensures h.Keys <= {"Authorization"}
    ensures "Authorization" in h <==> Given(config.apiKeyEnvVar) && config.apiKeyEnvVar.value in env && env[config.apiKeyEnvVar.value] != ""
    ensures "Authorization" in h ==> h["Authorization"] == "Bearer " + env[config.apiKeyEnvVar.value]
  {
    var key := ApiKey(config, env);
    if Given(key) then map["Authorization" := "Bearer " + key.value] else map[]
  }

  /** The one request sent, when the configuration has an endpoint. */
  function Request(source: ScrapeSource, env: Env): (r: Option<ApiRequest>)
    ensures r.Some? <==> source.apiConfig.Some? && Given(source.apiConfig.value.endpoint)
    ensures r.Some? ==> r.value.url == source.apiConfig.value.endpoint.value
    ensures r.Some? ==> r.value.headers == Headers(source.apiConfig.value, env)
    ensures r.Some? ==> r.value.params == source.apiConfig.value.extraParams.GetOr(map[])
  {
    if source.apiConfig.None? || !Given(source.apiConfig.value.endpoint) then None
    else
      var config := source.apiConfig.value;
      Some(ApiRequest(config.endpoint.value, config.extraParams.GetOr(map[]), Headers(config, env)))
  }

  /** The `.map` callback: missing or empty fields fall back to their defaults. */
  function MapJob(job: ApiJob): (r: ApiListing)
    ensures r.title == job.title
    ensures Given(job.description) ==> r.description == job.description.value
    ensures !Given(job.description) ==> r.description == ""
    ensures r.location != ""
    ensures Given(job.location) ==> r.location == job.location.value
    ensures !Given(job.location) ==> r.location == DefaultLocation
    ensures r.companyName.Some? <==> Given(job.company)
    ensures r.companyName.Some? ==> r.companyName == job.company
    ensures r.applyUrl.Some? <==> Given(job.applyUrl)
    ensures r.applyUrl.Some? ==> r.applyUrl == job.applyUrl
  {
    ApiListing(job.title, OrElse(job.description, ""), OrElse(job.location, DefaultLocation), Truthy(job.company), Truthy(job.applyUrl))
  }

  /** `(data.jobs || []).map(...)`: one listing per job, in order. */
  function MapJobs(body: ApiBody): (r: seq<ApiListing>)
    ensures body.jobs.None? ==> r == []
    ensures body.jobs.Some? ==> |r| == |body.jobs.value|
    ensures body.jobs.Some? ==> forall i :: 0 <= i < |r| ==> r[i] == MapJob(body.jobs.value[i])
  {
    match body.jobs
    case None => []
    case Some(jobs) => seq(|jobs|, i requires 0 <= i < |jobs| => MapJob(jobs[i]))
  }

  /** `fetchJobsFromApiProvider(source)`. */
  function FetchJobs(source: ScrapeSource, env: Env, client: ApiClient): Result<seq<ApiListing>> {
    match Request(source, env)
    case None => Failure(MissingEndpointMessage)
    case Some(request) =>
      match client(request)
      case RequestFailed(message) => Failure(message)
      case Responded(body) => Success(MapJobs(body))
  }

  // ---- properties ----

  /** Without an endpoint the call fails with the same error whatever the client would answer. */
  lemma MissingEndpointFailsBeforeRequest(source: ScrapeSource, env: Env, client: ApiClient)
    requires source.apiConfig.None? || !Given(source.apiConfig.value.endpoint)
    ensures FetchJobs(source, env, client) == Failure(MissingEndpointMessage)
  {
  }

  /** A successful call sent one request to the endpoint and mapped every job of its answer, in order. */
  lemma FetchJobsSuccess(source: ScrapeSource, env: Env, client: ApiClient)
    requires FetchJobs(source, env, client).Success?
    ensures Request(source, env).Some?
    ensures var body := client(Request(source, env).value).body;
            && client(Request(source, env).value).Responded?
            && FetchJobs(source, env, client).value == MapJobs(body)
            && (body.jobs.None? ==> FetchJobs(source, env, client).value == [])
            && (body.jobs.Some? ==> |FetchJobs(source, env, client).value| == |body.jobs.value|)
  {
  }

  /** A failed request rejects the call with the client's message. */
  lemma FetchJobsRequestFailure(source: ScrapeSource, env: Env, client: ApiClient)
    requires Request(source, env).Some? && client(Request(source, env).value).RequestFailed?
    ensures FetchJobs(source, env, client) == Failure(client(Request(source, env).value).message)
  {
  }
}
