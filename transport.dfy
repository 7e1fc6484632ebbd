/**
 * The transport of internal/client/client.go: the client's configuration, how a request is
 * built (URL and headers), how a response status is classified into the error kinds, and how a
 * response body is decoded into an entry.
 *
 * The HTTP exchange itself is abstract: a `Network` records every request sent (`log`) and
 * answers the i-th of them with the i-th of a given sequence of replies (`replies`). A reply is a
 * status, the raw body text and the body decoded as JSON (None when it is not valid JSON).
 */
module Transport {
  import opened Wrappers
  import opened Attrs

  /** The error kinds callers distinguish: the three sentinels, a generic HTTP error, and the
      failures of executing the request and of decoding its body. */
  datatype ApiError =
    | NotFound
    | Unauthorized
    | Forbidden
    | HttpError(status: int, body: Option<string>)
    | TransportFailure
    | DecodeFailure

  /**
   * `checkResponse`: None for any 2xx status; the sentinels for 404, 401 and 403; otherwise a
   * generic error carrying the status, and the body exactly when it is non-empty.
   */
  function CheckResponse(status: int, body: string): (r: Option<ApiError>)
    ensures r.None? <==> 200 <= status < 300
    ensures r == Some(NotFound) <==> status == 404
    ensures r == Some(Unauthorized) <==> status == 401
    ensures r == Some(Forbidden) <==> status == 403
    ensures r.Some? && status != 404 && status != 401 && status != 403 ==>
              r.value.HttpError? && r.value.status == status &&
              (r.value.body.Some? <==> |body| > 0) &&
              (r.value.body.Some? ==> r.value.body.value == body)
  {
    if 200 <= status < 300 then None
    else if status == 404 then Some(NotFound)
    else if status == 401 then Some(Unauthorized)
    else if status == 403 then Some(Forbidden)
    else if |body| > 0 then Some(HttpError(status, Some(body)))
    else Some(HttpError(status, None))
  }

  /** `strings.TrimSuffix(s, "/")`: removes one trailing slash, and only one. */
  function TrimSuffixSlash(s: string): (r: string)
    ensures |s| > 0 && s[|s| - 1] == '/' ==> r + "/" == s
    ensures !(|s| > 0 && s[|s| - 1] == '/') ==> r == s
    ensures r <= s && |s| - 1 <= |r|
  {
    if |s| > 0 && s[|s| - 1] == '/' then s[..|s| - 1] else s
  }

  /** Durations in nanoseconds, as Go's `time.Duration`. */
  const Second: int := 1000000000
  const DefaultTimeout: int := 30 * Second

  /** The functional options of `NewClient`, each reduced to the timeout it leaves in force. */
  datatype ClientOption =
    | WithHttpClient(timeout: int)   // a caller-supplied client, with its own timeout
    | WithTimeout(timeout: int)

  datatype HttpMethod = GET | POST | PATCH | DELETE

  datatype Request =
    | Http(verb: HttpMethod, url: string, headers: map<string, string>, body: Option<Json>)
      // the credential-reset-token call, whose code is not part of this model
    | ResetTokenIntent(id: string, ttl: int)

  datatype Reply =
    | Answer(status: int, body: string, json: Option<Json>)
    | Dropped   // the request could not be executed

  /** The reply to the `i`-th request: a request past the end of the replies is not answered. */
  function At(replies: seq<Reply>, i: nat): Reply {
    if i < |replies| then replies[i] else Dropped
  }

  /** The remote side: what was sent so far, and how each request will be answered. */
  class Network {
    var log: seq<Request>
    const replies: seq<Reply>

    constructor (replies: seq<Reply>)
      ensures log == [] && this.replies == replies
    {
      log := [];
      this.replies := replies;
    }

    /** Sends a request; it is answered by the reply whose index is its position in the log. */
    method Exchange(req: Request) returns (reply: Reply)
      modifies this
      ensures log == old(log) + [req]
      ensures reply == At(replies, |old(log)|)
    {
      reply := At(replies, |log|);
      log := log + [req];
    }
  }

  /** What `doRequest` returns for a reply: the response when it classifies as success. */
  function Outcome(reply: Reply): (r: Result<Reply, ApiError>)
    ensures reply.Dropped? ==> r == Failure(TransportFailure)
    ensures reply.Answer? ==> (r.Success? <==> 200 <= reply.status < 300)
    ensures reply.Answer? && r.Failure? ==> CheckResponse(reply.status, reply.body) == Some(r.error)
    ensures r.Success? ==> r.value == reply
  {
    match reply
    case Dropped => Failure(TransportFailure)
    case Answer(status, body, _) =>
      match CheckResponse(status, body)
      case None => Success(reply)
      case Some(e) => Failure(e)
  }

  /**
   * `decodeResponse` into an `Entry`: a body that is not JSON, or whose `attrs` is not an
   * object, fails to decode; a missing or null `attrs` leaves the map nil, which reads as empty.
   */
  function DecodeEntry(json: Option<Json>): (r: Result<Entry, ApiError>)
    ensures r.Failure? ==> r.error == DecodeFailure
    ensures json.None? ==> r.Failure?
  {
    match json
    case None => Failure(DecodeFailure)
    case Some(JNull) => Success(map[])
    case Some(JObj(fields)) =>
      if "attrs" !in fields then Success(map[])
      else (match fields["attrs"]
        case JNull => Success(map[])
        case JObj(attrs) => Success(ToEntry(attrs))
        case _ => Failure(DecodeFailure))
    case Some(_) => Failure(DecodeFailure)
  }

  /** An entry that comes back in the request wrapper's shape decodes to its attributes. */
  lemma DecodeEntryOfWrapper(attrs: map<string, Json>)
    ensures DecodeEntry(Some(AttrsRequest(attrs))) == Success(ToEntry(attrs))
  {
  }

  /** `decodeResponse` into a `string` (the basic secret): JSON null leaves it empty. */
  function DecodeString(json: Option<Json>): (r: Result<string, ApiError>)
    ensures json == Some(JNull) ==> r == Success("")
    ensures forall s :: json == Some(JStr(s)) ==> r == Success(s)
    ensures r.Failure? <==> !(json.Some? && (json.value.JStr? || json.value.JNull?))
  {
    match json
    case Some(JStr(s)) => Success(s)
    case Some(JNull) => Success("")
    case _ => Failure(DecodeFailure)
  }

  /** The error a call without a result value returns; None is the nil error. */
  function Err(r: Result<Reply, ApiError>): Option<ApiError> {
    if r.Failure? then Some(r.error) else None
  }

  /** A GET of one entry: the exchange, then the decode of its body. */
  function FetchEntry(reply: Reply): Result<Entry, ApiError>
  {
    match Outcome(reply)
    case Failure(e) => Failure(e)
    case Success(_) => DecodeEntry(reply.json)
  }

  /** The Kanidm API client: base URL, bearer token and the HTTP client's timeout. */
  class Client {
    const baseURL: string
    const token: string
    var timeout: int

    /** `NewClient`: the base URL loses one trailing slash; the last option decides the timeout. */
    constructor (baseURL: string, token: string, opts: seq<ClientOption>)
      ensures this.baseURL == TrimSuffixSlash(baseURL) && this.token == token
      ensures timeout == if opts == [] then DefaultTimeout else opts[|opts| - 1].timeout
    {
      this.baseURL := TrimSuffixSlash(baseURL);
      this.token := token;
      timeout := DefaultTimeout;
      new;
      for i := 0 to |opts|
        invariant timeout == if i == 0 then DefaultTimeout else opts[i - 1].timeout
      {
        match opts[i]
        case WithHttpClient(t) =>
          timeout := t;
        case WithTimeout(t) =>
          timeout := t;
      }
    }

    /** The headers every request carries: a bearer token and JSON content negotiation. */
    function Headers(): (h: map<string, string>)
      ensures h.Keys == {"Authorization", "Content-Type", "Accept"}
      ensures "Bearer " <= h["Authorization"] && h["Authorization"][|"Bearer "|..] == token
      ensures h["Content-Type"] == "application/json" && h["Accept"] == "application/json"
    {
      map["Authorization" := "Bearer " + token,
          "Content-Type" := "application/json",
          "Accept" := "application/json"]
    }

    /** The request `doRequest` sends for a method, a path and an optional body. */
    function NewRequest(verb: HttpMethod, path: string, body: Option<Json>): (r: Request)
    {
      Http(verb, baseURL + path, Headers(), body)
    }

    /** `doRequest`: send one request and classify the reply. */
    method DoRequest(net: Network, verb: HttpMethod, path: string, body: Option<Json>)
      returns (r: Result<Reply, ApiError>)
      modifies net
      ensures net.log == old(net.log) + [NewRequest(verb, path, body)]
      ensures r == Outcome(At(net.replies, |old(net.log)|))
    {
      var reply := net.Exchange(NewRequest(verb, path, body));
      r := Outcome(reply);
    }
  }

  /** A request goes to the base URL followed by the path and carries the client's bearer token. */
  lemma RequestShape(c: Client, verb: HttpMethod, path: string, body: Option<Json>)
    ensures var r := c.NewRequest(verb, path, body);
            && r.Http? && r.verb == verb && r.body == body
            && r.url == c.baseURL + path
            && r.headers["Authorization"] == "Bearer " + c.token
  {
  }

  /** Requests from one client differ whenever their method, path or body differ. */
  lemma NewRequestInjective(c: Client, m1: HttpMethod, p1: string, b1: Option<Json>,
                            m2: HttpMethod, p2: string, b2: Option<Json>)
    requires c.NewRequest(m1, p1, b1) == c.NewRequest(m2, p2, b2)
    ensures m1 == m2 && p1 == p2 && b1 == b2
  {
    var u := c.NewRequest(m1, p1, b1).url;
    assert p1 == u[|c.baseURL|..] == p2;
  }
}
