/** The shared HTTP client (webapp/src/lib/api.ts): a base URL, a JSON content type, a request
    interceptor that attaches the stored bearer token, and a response interceptor that tears
    the session down on 401. The transport itself is not modelled: the reply to each call is
    an input. */
module Api {
  import opened Wrappers
  import opened Http
  import Session
  import Effects

  const DEFAULT_BASE_URL := "http://localhost:8080"
  const LOGIN_ROUTE := "/login"

  /** Headers every request starts with (`axios.create`). */
  const DEFAULT_HEADERS: map<string, string> := map["Content-Type" := "application/json"]

  /** `process.env.NEXT_PUBLIC_API_URL || 'http://localhost:8080'` */
  function BaseUrl(env: Option<string>): (url: string)
    ensures env.Some? && env.value != "" ==> url == env.value
    ensures env.None? || env.value == "" ==> url == DEFAULT_BASE_URL
    ensures url != ""
  {
    if env.Some? && env.value != "" then env.value else DEFAULT_BASE_URL
  }

  /** The headers after the request interceptor, given what `getToken()` returned: a stored
      token is sent as exactly `Bearer <token>`, every other header is kept, and without a
      token the headers are left as they are. */
  function WithBearer(headers: map<string, string>, token: Option<string>): (h: map<string, string>)
    ensures token.Some? && token.value != "" ==>
      && "Authorization" in h && h["Authorization"] == "Bearer " + token.value
      && h.Keys == headers.Keys + {"Authorization"}
    ensures forall k :: k in headers && k != "Authorization" ==> k in h && h[k] == headers[k]
    ensures token.None? || token.value == "" ==> h == headers
  {
    if token.Some? && token.value != "" then headers["Authorization" := "Bearer " + token.value]
    else headers
  }

  /** The cookie map after a reply has passed the response interceptor. */
  function AfterReply<T>(m: map<string, string>, reply: HttpOutcome<T>): map<string, string>
  {
    if IsUnauthorized(reply) then Session.Cleared(m) else m
  }

  /** The effects the response interceptor records for a reply. */
  function ReplyEffects<T>(reply: HttpOutcome<T>): seq<Effects.Effect>
  {
    if IsUnauthorized(reply) then [Effects.LocationAssign(LOGIN_ROUTE)] else []
  }

  /** The request as the request interceptor leaves it for `req`, given the base URL and the
      stored token: the method and body of `req`, the JSON content type, and the bearer header
      exactly when a token is stored. */
  function Outgoing(baseUrl: string, req: Request, token: Option<string>): (sent: SentRequest)
    ensures sent.verb == req.verb && sent.url == baseUrl + req.path && sent.body == req.body
    ensures "Content-Type" in sent.headers && sent.headers["Content-Type"] == "application/json"
    ensures "Authorization" in sent.headers <==> token.Some? && token.value != ""
    ensures "Authorization" in sent.headers ==> sent.headers["Authorization"] == "Bearer " + token.value
  {
    SentRequest(req.verb, baseUrl + req.path, WithBearer(DEFAULT_HEADERS, token), req.body)
  }

  /** The mutable request config the interceptors see. */
  class RequestConfig {
    const verb: HttpMethod
    const url: string
    var headers: map<string, string>
    const body: Option<JsonObject>

    constructor (baseUrl: string, req: Request)
      ensures verb == req.verb && url == baseUrl + req.path && body == req.body
      ensures headers == DEFAULT_HEADERS
    {
      verb, url, body := req.verb, baseUrl + req.path, req.body;
      headers := DEFAULT_HEADERS;
    }

    function Snapshot(): SentRequest
      reads this
    {
      SentRequest(verb, url, headers, body)
    }
  }

  class ApiClient {
    const baseUrl: string
    const jar: Session.CookieJar
    const log: Effects.EffectLog

    constructor (env: Option<string>, jar: Session.CookieJar, log: Effects.EffectLog)
      ensures baseUrl == BaseUrl(env) && this.jar == jar && this.log == log
    {
      this.baseUrl := BaseUrl(env);
      this.jar := jar;
      this.log := log;
    }

    /** The request interceptor: sets `config.headers.Authorization` in place when a token is
        stored, and touches nothing else. */
    method InterceptRequest(config: RequestConfig)
      modifies config
      ensures config.headers == WithBearer(old(config.headers), jar.GetToken())
      ensures jar.GetToken().Some? ==> config.headers["Authorization"] == "Bearer " + jar.GetToken().value
      ensures jar.GetToken().None? ==> config.headers == old(config.headers)
    {
      var token := jar.GetToken();
      if token.Some? && token.value != "" {
        config.headers := config.headers["Authorization" := "Bearer " + token.value];
      }
    }

    /** The response interceptor: a success passes through; a 401 error removes both session
        cookies and sends the tab to the login page; every error is rejected again, unchanged. */
    method InterceptResponse<T>(reply: HttpOutcome<T>) returns (r: HttpOutcome<T>)
      modifies jar, log
      ensures r == reply
      ensures jar.entries == AfterReply(old(jar.entries), reply)
      ensures log.events == old(log.events) + ReplyEffects(reply)
      ensures !IsUnauthorized(reply) ==> jar.entries == old(jar.entries) && log.events == old(log.events)
      ensures IsUnauthorized(reply) ==> jar.GetToken().None? && jar.GetUser() == Ok(None)
    {
      if IsUnauthorized(reply) {
        jar.RemoveToken();
        log.Record(Effects.LocationAssign(LOGIN_ROUTE));
      }
      r := reply;
    }

    /** One call through the client: build the config, run the request interceptor, hand the
        request to the transport (recorded), and run the response interceptor on `reply`. */
    method Send<T>(req: Request, reply: HttpOutcome<T>) returns (r: HttpOutcome<T>)
      modifies jar, log
      ensures r == reply
      ensures jar.entries == AfterReply(old(jar.entries), reply)
      ensures log.events
        == old(log.events) + [Effects.Request(Outgoing(baseUrl, req, old(jar.GetToken())))] + ReplyEffects(reply)
    {
      var config := new RequestConfig(baseUrl, req);
      InterceptRequest(config);
      log.Record(Effects.Request(config.Snapshot()));
      r := InterceptResponse(reply);
    }
  }
}
