/**
  The population proxy route (`GET /api/population?prefCode=…`): check the
  query parameter, then the configuration, then relay the upstream
  composition request.
 */
module PopulationRoute {
  import opened Common
  import opened ServerEnv
  import opened Proxy

  /** The query string, `request.nextUrl.searchParams`. */
  type Query = map<string, string>

  const CodeRequired: string := "Prefecture code is required"
  const FetchFailed: string := "Failed to fetch population data from external API"
  const CompositionPath: string := "/api/v1/population/composition/perYear?prefCode="

  /** Population data is cached upstream for 24 hours. */
  const Revalidate: nat := 86400

  /** The request sent upstream for a prefecture code. */
  function Request(env: Env, prefCode: string): (req: UpstreamRequest)
    requires ConfigPresent(env)
    ensures req.url == env["API_URL"] + CompositionPath + prefCode
    ensures ("X-API-KEY", env["API_KEY"]) in req.headers
    ensures req.revalidate == 86400
  {
    UpstreamRequest(env["API_URL"] + CompositionPath + prefCode, Headers(env["API_KEY"]), Revalidate)
  }

  /** The handler. `u` is what the upstream call would come to; it is
      consulted only if the handler gets as far as calling it. */
  function Get(query: Query, env: Env, u: Upstream): (r: Response)
    ensures !HasValue(query, "prefCode") ==> r == Response(400, ErrorBody(CodeRequired), None)
    ensures HasValue(query, "prefCode") && !ConfigPresent(env) ==>
              r == Response(500, ErrorBody(ConfigMissing), None)
    ensures r.sent.Some? <==> HasValue(query, "prefCode") && ConfigPresent(env)
    ensures r.sent.Some? ==> r.sent == Some(Request(env, query["prefCode"]))
    ensures r.sent.Some? && u.Ok? ==> r.status == 200 && r.body == Forwarded(u.body)
    ensures r.sent.Some? && u.NotOk? && Relayable(u.status) ==> r.status == u.status && r.body == ErrorBody(FetchFailed)
    ensures r.sent.Some? && (u.Throws? || (u.NotOk? && !Relayable(u.status))) ==>
              r.status == 500 && r.body == ErrorBody(InternalError)
  {
    Catch(
      if !HasValue(query, "prefCode") then Returned(Response(400, ErrorBody(CodeRequired), None))
      else if !ConfigPresent(env) then Returned(Response(500, ErrorBody(ConfigMissing), None))
      else Forward(Request(env, query["prefCode"]), u, FetchFailed))
  }

  /** A handler that stops before the upstream call answers the same whatever
      the upstream would have done. */
  lemma {:induction false} UpstreamIrrelevantWhenNotCalled(query: Query, env: Env, u1: Upstream, u2: Upstream)
    requires Get(query, env, u1).sent.None?
    ensures Get(query, env, u1) == Get(query, env, u2)
  {
  }

  /** The missing query parameter is reported even when the configuration is
      also missing: the parameter check comes first. */
  lemma {:induction false} QueryCheckedBeforeConfig(env: Env, u: Upstream)
    requires !ConfigPresent(env)
    ensures Get(map[], env, u).status == 400
    ensures Get(map["prefCode" := ""], env, u).status == 400
  {
  }

  /** The body is forwarded exactly when the upstream was called and
      answered ok; with a well-formed upstream that is also exactly when the
      status is a success status. */
  lemma {:induction false} ForwardedIffOk(query: Query, env: Env, u: Upstream)
    requires WellFormed(u)
    ensures var r := Get(query, env, u);
            (r.body.Forwarded? <==> r.sent.Some? && u.Ok?) &&
            ((200 <= r.status <= 299) <==> r.body.Forwarded?)
  {
    if HasValue(query, "prefCode") && ConfigPresent(env) {
      ForwardStatus(Request(env, query["prefCode"]), u, FetchFailed);
    }
  }
}
