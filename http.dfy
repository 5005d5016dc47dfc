/** The HTTP vocabulary of the API client: requests as the service builds them (`verb` is the HTTP method), requests as
    they leave the browser, and replies as the transport delivers them. */
module Http {
  import opened Wrappers

  datatype HttpMethod = Get | Post

  /** A JSON body: a flat object from field names to string values. */
  type JsonObject = map<string, string>

  /** A call as the auth service asks for it: a method, a path relative to the base URL and
      an optional JSON body. */
  datatype Request = Request(verb: HttpMethod, path: string, body: Option<JsonObject>)

  /** A call as the request interceptor leaves it: the base URL prefixed, the interceptor's
      headers. */
  datatype SentRequest =
    SentRequest(verb: HttpMethod, url: string, headers: map<string, string>, body: Option<JsonObject>)

  /** The response attached to a failed call: its status and the server's payload, as text
      (`None` when the payload is absent). */
  datatype ErrorResponse = ErrorResponse(status: int, data: Option<string>)

  /** How a call settles: `Resolved` carries `response.data` of a 2xx reply; `Rejected` carries
      `error.response`, which is absent for a network-level failure. */
  datatype HttpOutcome<+T> = Resolved(data: T) | Rejected(response: Option<ErrorResponse>)

  /** `error.response?.status === 401` */
  predicate IsUnauthorized<T>(reply: HttpOutcome<T>)
  {
    reply.Rejected? && reply.response.Some? && reply.response.value.status == 401
  }

  /** The server's error payload when it is truthy (present and not the empty string). */
  function ServerMessage<T>(reply: HttpOutcome<T>): Option<string>
  {
    if reply.Rejected? && reply.response.Some? && reply.response.value.data.Some?
       && reply.response.value.data.value != ""
    then reply.response.value.data
    else None
  }
}
