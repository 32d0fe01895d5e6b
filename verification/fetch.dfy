/** The request helper shared by every endpoint binding: it builds the request
    (base URL, default headers, caller options) and turns the HTTP response into
    the uniform `{status, data}` / `{status, error}` envelope. The network round
    trip itself is not modelled: a request is a value handed to the server, and
    the server's answer is a value handed back. */
module Fetch {
  import opened Json

  /** Where requests go and which key they carry. The module-level helper uses
      the base URL `https://api.brevo.com/v3` and the key from the environment;
      a fetcher made by `createBrevoFetcher` uses the two values it was given. */
  datatype Config = Config(baseUrl: string, apiKey: string)

  /** What a caller passes as fetch options: verb, JSON body before
      serialisation, and extra headers by name. */
  datatype RequestOptions = RequestOptions(
    verb: Option<string>,
    body: Option<Json>,
    headers: map<string, string>)

  /** The request handed to the network. */
  datatype Request = Request(
    url: string,
    verb: Option<string>,
    body: Option<Json>,
    headers: map<string, string>)

  /** What the network hands back: the status, the `ok` flag, the reason phrase
      and the body as parsed by `res.json()`, None when parsing failed. */
  datatype HttpResponse = HttpResponse(
    status: int,
    ok: bool,
    statusText: string,
    body: Option<Json>)

  /** A response whose `ok` flag is what the Fetch standard makes it. */
  predicate WellFormed(res: HttpResponse) {
    res.ok == (200 <= res.status <= 299)
  }

  /** The structured error of a failed call. */
  datatype ApiError = ApiError(
    status: int,
    message: Json,
    code: Option<Json>,
    details: Json)

  /** The envelope every call resolves to: data or error, never both. */
  datatype ApiResponse =
    | Success(status: int, data: Json)
    | Failure(status: int, error: ApiError)

  function DefaultHeaders(apiKey: string): map<string, string> {
    map["Content-Type" := "application/json", "api-key" := apiKey]
  }

  /** `{...defaults, ...caller}`: every caller header is kept as given, and a
      default survives only where the caller did not name it. */
  function MergeHeaders(defaults: map<string, string>, caller: map<string, string>): (m: map<string, string>)
    ensures m.Keys == defaults.Keys + caller.Keys
    ensures forall k :: k in caller ==> m[k] == caller[k]
    ensures forall k :: k in defaults && k !in caller ==> m[k] == defaults[k]
  {
    defaults + caller
  }

  /** The request sent for `endpoint` with `options`. */
  function PrepareRequest(cfg: Config, endpoint: string, options: RequestOptions): (r: Request)
    ensures r.url == cfg.baseUrl + endpoint
    ensures r.verb == options.verb && r.body == options.body
    ensures r.headers.Keys == {"Content-Type", "api-key"} + options.headers.Keys
    ensures r.headers["Content-Type"] ==
      if "Content-Type" in options.headers then options.headers["Content-Type"] else "application/json"
    ensures r.headers["api-key"] ==
      if "api-key" in options.headers then options.headers["api-key"] else cfg.apiKey
    ensures forall k :: k in options.headers ==> r.headers[k] == options.headers[k]
  {
    Request(cfg.baseUrl + endpoint, options.verb, options.body,
            MergeHeaders(DefaultHeaders(cfg.apiKey), options.headers))
  }

  /** The body as the client sees it: a failed parse becomes `null`. */
  function ParsedBody(res: HttpResponse): Json {
    match res.body
    case Some(v) => v
    case None => JNull
  }

  /** `data?.message || res.statusText`. */
  function ErrorMessage(data: Json, statusText: string): (m: Json)
    ensures Member(data, "message").Some? && Truthy(Member(data, "message").value) ==>
      m == Member(data, "message").value
    ensures !(Member(data, "message").Some? && Truthy(Member(data, "message").value)) ==>
      m == JStr(statusText)
  {
    match Member(data, "message")
    case Some(v) => if Truthy(v) then v else JStr(statusText)
    case None => JStr(statusText)
  }

  /** The envelope made from an HTTP response. */
  function Normalise(res: HttpResponse): (r: ApiResponse)
    ensures r.status == res.status
    ensures r.Failure? <==> !res.ok
    ensures r.Success? ==> r.data == ParsedBody(res)
    ensures r.Failure? ==>
      && r.error.status == res.status
      && r.error.message == ErrorMessage(ParsedBody(res), res.statusText)
      && r.error.code == Member(ParsedBody(res), "code")
      && r.error.details == ParsedBody(res)
  {
    var data := ParsedBody(res);
    if !res.ok then
      Failure(res.status, ApiError(res.status, ErrorMessage(data, res.statusText), Member(data, "code"), data))
    else
      Success(res.status, data)
  }

  /** For a well-formed response, the envelope is an error exactly when the
      status lies outside 200..299, and the error then carries that status;
      an HTTP error is a value, never a missing result. */
  lemma ErrorIffOutsideSuccessRange(res: HttpResponse)
    requires WellFormed(res)
    ensures Normalise(res).Failure? <==> !(200 <= res.status <= 299)
    ensures Normalise(res).Failure? ==> Normalise(res).error.status == res.status
  {
  }

  /** A successful response whose body is empty or not JSON (a 204, say)
      yields `data: null`. */
  lemma UnparsableSuccessIsNullData(res: HttpResponse)
    requires res.ok && res.body.None?
    ensures Normalise(res) == Success(res.status, JNull)
  {
  }

  /** A successful response round-trips its status and parsed body unchanged. */
  lemma SuccessRoundTrip(status: int, statusText: string, body: Json)
    ensures Normalise(HttpResponse(status, true, statusText, Some(body))) == Success(status, body)
  {
  }
}
