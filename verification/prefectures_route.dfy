/**
  The prefectures proxy route (`GET /api/prefectures`): check the
  configuration, then relay the upstream prefecture-list request.
 */
module PrefecturesRoute {
  import opened Common
  import opened ServerEnv
  import opened Proxy
  import PopulationRoute

  const FetchFailed: string := "Failed to fetch prefectures from external API"
  const PrefecturesPath: string := "/api/v1/prefectures"

  /** The prefecture list is cached upstream for one hour. */
  const Revalidate: nat := 3600

  /** The request sent upstream. */
  function Request(env: Env): (req: UpstreamRequest)
    requires ConfigPresent(env)
    ensures req.url == env["API_URL"] + PrefecturesPath
    ensures ("X-API-KEY", env["API_KEY"]) in req.headers
    ensures req.revalidate == 3600
  {
    UpstreamRequest(env["API_URL"] + PrefecturesPath, Headers(env["API_KEY"]), Revalidate)
  }

  /** The handler; `u` is what the upstream call would come to. */
  function Get(env: Env, u: Upstream): (r: Response)
    ensures !ConfigPresent(env) ==> r == Response(500, ErrorBody(ConfigMissing), None)
    ensures r.sent.Some? <==> ConfigPresent(env)
    ensures r.sent.Some? ==> r.sent == Some(Request(env))
    ensures r.sent.Some? && u.Ok? ==> r.status == 200 && r.body == Forwarded(u.body)
    ensures r.sent.Some? && u.NotOk? && Relayable(u.status) ==> r.status == u.status && r.body == ErrorBody(FetchFailed)
    ensures r.sent.Some? && (u.Throws? || (u.NotOk? && !Relayable(u.status))) ==>
              r.status == 500 && r.body == ErrorBody(InternalError)
  {
    Catch(
      if !ConfigPresent(env) then Returned(Response(500, ErrorBody(ConfigMissing), None))
      else Forward(Request(env), u, FetchFailed))
  }

  /** Without configuration the handler answers the same whatever the
      upstream would have done. */
  lemma {:induction false} UpstreamIrrelevantWithoutConfig(env: Env, u1: Upstream, u2: Upstream)
    requires !ConfigPresent(env)
    ensures Get(env, u1) == Get(env, u2)
  {
  }

  /** With a well-formed upstream, a success status means the body was
      forwarded and vice versa. */
  lemma {:induction false} ForwardedIffOk(env: Env, u: Upstream)
    requires WellFormed(u)
    ensures var r := Get(env, u);
            (r.body.Forwarded? <==> r.sent.Some? && u.Ok?) &&
            ((200 <= r.status <= 299) <==> r.body.Forwarded?)
  {
    if ConfigPresent(env) {
      ForwardStatus(Request(env), u, FetchFailed);
    }
  }

  /** The two routes report a missing configuration identically, and
      otherwise differ only in the request they send and the message for a
      failing upstream status: both answer with the same status, and a
      thrown upstream call and an ok answer come out the same way from
      both. */
  lemma {:induction false} RoutesAgree(query: PopulationRoute.Query, env: Env, u: Upstream)
    requires HasValue(query, "prefCode")
    ensures !ConfigPresent(env) ==> PopulationRoute.Get(query, env, u) == Get(env, u)
    ensures ConfigPresent(env) ==> PopulationRoute.Get(query, env, u).status == Get(env, u).status
    ensures ConfigPresent(env) && !u.NotOk? ==>
              PopulationRoute.Get(query, env, u).body == Get(env, u).body
  {
  }
}
