/**
  What the two server routes share: the outcome of the one upstream call a
  handler may make, the request it sends, and the JSON response it returns.
  Each handler's `try` block either returns a response or throws; the
  `catch` turns a throw into a 500 "Internal server error".
 */
module Proxy {
  import opened Common
  import opened ServerEnv

  /** What awaiting `fetch(...)` and, when the response is ok, `res.json()`
      comes to: an ok response and its parsed body, a response that is not
      ok with its status, or a rejection (network failure, unparsable body). */
  datatype Upstream = Ok(body: string) | NotOk(status: int) | Throws

  /** A `fetch` response is `ok` exactly when its status is 200..299, so an
      upstream that is not ok carries a status outside that range. */
  predicate WellFormed(u: Upstream)
  {
    u.NotOk? ==> !(200 <= u.status <= 299)
  }

  /** Whether `NextResponse.json` can build a response with this status.
      Initialising a response (section "Response class" of the WHATWG Fetch
      standard) throws a RangeError for a status outside 200..599 and a
      TypeError for a null-body status (204, 205, 304), since a JSON
      response always has a body. Inside the `try` block such a throw
      reaches the `catch`. */
  predicate Relayable(status: int)
  {
    200 <= status <= 599 && status != 204 && status != 205 && status != 304
  }

  /** The request a handler sends upstream: the URL, the headers, and the
      number of seconds the framework may cache the answer. */
  datatype UpstreamRequest = UpstreamRequest(url: string, headers: seq<(string, string)>, revalidate: nat)

  /** The JSON body of a route response: an `{ error }` object, or the
      upstream body forwarded as it is. */
  datatype Body = ErrorBody(error: string) | Forwarded(payload: string)

  /** A route response together with the upstream request the handler made,
      if it made one. */
  datatype Response = Response(status: int, body: Body, sent: Option<UpstreamRequest>)

  const ConfigMissing: string := "API configuration is missing"
  const InternalError: string := "Internal server error"

  /** `!apiUrl || !apiKey` is false: both variables are set and non-empty. */
  predicate ConfigPresent(env: Env)
  {
    HasValue(env, "API_URL") && HasValue(env, "API_KEY")
  }

  /** The headers both handlers send. */
  function Headers(apiKey: string): (h: seq<(string, string)>)
    ensures ("X-API-KEY", apiKey) in h
  {
    [("X-API-KEY", apiKey), ("Content-Type", "application/json")]
  }

  /** How the `try` block of a handler ends. */
  datatype Completion = Returned(response: Response) | Threw(sent: Option<UpstreamRequest>)

  /** The `catch` clause: a throw becomes a 500 with the generic message. */
  function Catch(c: Completion): (r: Response)
    ensures c.Returned? ==> r == c.response
    ensures c.Threw? ==> r.status == 500 && r.body == ErrorBody(InternalError) && r.sent == c.sent
  {
    match c
    case Returned(resp) => resp
    case Threw(sent) => Response(500, ErrorBody(InternalError), sent)
  }

  /** The part of a handler after the configuration check: send `req`, pass a
      failing status through with `failure` as the message, forward an ok
      body with status 200. A failing status that no response can carry
      makes building the error response throw. */
  function Forward(req: UpstreamRequest, u: Upstream, failure: string): (c: Completion)
    ensures c.Threw? <==> u.Throws? || (u.NotOk? && !Relayable(u.status))
    ensures c.Returned? ==> c.response.sent == Some(req)
    ensures c.Threw? ==> c.sent == Some(req)
    ensures u.Ok? ==> c == Returned(Response(200, Forwarded(u.body), Some(req)))
    ensures u.NotOk? && Relayable(u.status) ==> c == Returned(Response(u.status, ErrorBody(failure), Some(req)))
  {
    match u
    case Throws => Threw(Some(req))
    case NotOk(status) =>
      if Relayable(status) then Returned(Response(status, ErrorBody(failure), Some(req)))
      else Threw(Some(req))
    case Ok(body) => Returned(Response(200, Forwarded(body), Some(req)))
  }

  /** The route's inline configuration check rejects exactly the
      environments that the validation in `lib/env.ts` rejects, and when it
      passes it reads the same two values `getEnv` returns. */
  lemma {:induction false} ConfigCheckMatchesValidation(env: Env)
    ensures !ConfigPresent(env) <==> ValidateEnv(env).Failure?
    ensures ConfigPresent(env) <==> GetEnv(env).Success?
    ensures ConfigPresent(env) ==> GetEnv(env).value == ApiConfig(env["API_URL"], env["API_KEY"])
  {
  }

  /** Whatever the upstream answers, the relayed response carries a status
      a response can have: an upstream status is passed through only when it
      is relayable, and any other failing status ends in the 500 of the
      `catch`. */
  lemma {:induction false} ForwardStatusRelayable(req: UpstreamRequest, u: Upstream, failure: string)
    ensures Relayable(Catch(Forward(req, u, failure)).status)
    ensures u.NotOk? && !Relayable(u.status) ==>
              Catch(Forward(req, u, failure)) == Response(500, ErrorBody(InternalError), Some(req))
  {
  }

  /** For a well-formed upstream, a forwarded call answers with a success
      status exactly when it forwards the body. */
  lemma {:induction false} ForwardStatus(req: UpstreamRequest, u: Upstream, failure: string)
    requires WellFormed(u)
    ensures var r := Catch(Forward(req, u, failure));
            (200 <= r.status <= 299) <==> r.body.Forwarded?
  {
  }
}
