/**
  Server-side environment validation (`lib/env.ts`): the two required
  variables, the list of those missing, the error thrown when any is
  missing, and the validated configuration.
 */
module ServerEnv {
  import opened Common

  /** The process environment, `process.env`. */
  type Env = map<string, string>

  /** The variables the server needs, in the order they are checked. */
  const RequiredServerEnvVars: seq<string> := ["API_URL", "API_KEY"]

  /** The names in `names` whose value is absent or empty, in order. */
  function MissingVars(env: Env, names: seq<string>): (r: seq<string>)
    ensures IsSubsequence(r, names)
    ensures forall x :: x in r <==> x in names && !HasValue(env, x)
  {
    if |names| == 0 then []
    else
      var rest := MissingVars(env, names[1..]);
      assert forall x :: x in names <==> x == names[0] || x in names[1..];
      if !HasValue(env, names[0]) then [names[0]] + rest
      else
        SubsequenceFacts(rest, names[1..]);
        rest
  }

  /** `Array.prototype.join`. */
  function Join(parts: seq<string>, sep: string): string
  {
    if |parts| == 0 then ""
    else if |parts| == 1 then parts[0]
    else parts[0] + sep + Join(parts[1..], sep)
  }

  const MissingPrefix: string := "Missing required environment variables: "
  const MissingHint: string := "Please check your .env.local file and ensure all required variables are set."

  /** The message of the error `validateEnv` throws. */
  function MissingMessage(missing: seq<string>): string
  {
    MissingPrefix + Join(missing, ", ") + "\n" + MissingHint
  }

  /** `validateEnv`: returns normally, or throws naming the missing variables. */
  function ValidateEnv(env: Env): (r: Result<(), string>)
    ensures r.Failure? <==> |MissingVars(env, RequiredServerEnvVars)| > 0
    ensures r.Failure? <==> !HasValue(env, "API_URL") || !HasValue(env, "API_KEY")
  {
    var missing := MissingVars(env, RequiredServerEnvVars);
    assert "API_URL" in RequiredServerEnvVars && "API_KEY" in RequiredServerEnvVars;
    if |missing| > 0 then Failure(MissingMessage(missing)) else Success(())
  }

  /** The validated server configuration. */
  datatype ApiConfig = ApiConfig(apiUrl: string, apiKey: string)

  /** `getEnv`: validate, then read both variables. */
  function GetEnv(env: Env): (r: Result<ApiConfig, string>)
    ensures r.Success? <==> HasValue(env, "API_URL") && HasValue(env, "API_KEY")
    ensures r.Success? ==> r.value == ApiConfig(env["API_URL"], env["API_KEY"])
    ensures r.Failure? ==> ValidateEnv(env).Failure? && r.error == ValidateEnv(env).error
  {
    match ValidateEnv(env)
    case Failure(e) => Failure(e)
    case Success(_) => Success(ApiConfig(env["API_URL"], env["API_KEY"]))
  }

  /** The message for each way validation can fail: it names the missing
      variables in the order they are required, separated by ", ". */
  lemma {:induction false} ValidateEnvMessages(env: Env)
    ensures !HasValue(env, "API_URL") && !HasValue(env, "API_KEY") ==>
              ValidateEnv(env) == Failure(MissingPrefix + "API_URL, API_KEY\n" + MissingHint)
    ensures !HasValue(env, "API_URL") && HasValue(env, "API_KEY") ==>
              ValidateEnv(env) == Failure(MissingPrefix + "API_URL\n" + MissingHint)
    ensures HasValue(env, "API_URL") && !HasValue(env, "API_KEY") ==>
              ValidateEnv(env) == Failure(MissingPrefix + "API_KEY\n" + MissingHint)
    ensures HasValue(env, "API_URL") && HasValue(env, "API_KEY") ==> ValidateEnv(env) == Success(())
  {
    var names := RequiredServerEnvVars;
    assert names[1..] == ["API_KEY"];
    assert names[1..][1..] == [];
    var tail := MissingVars(env, ["API_KEY"]);
    assert tail == if HasValue(env, "API_KEY") then [] else ["API_KEY"];
    var missing := MissingVars(env, names);
    assert missing == if HasValue(env, "API_URL") then tail else ["API_URL"] + tail;
    assert ["API_URL"] + ["API_KEY"] == ["API_URL", "API_KEY"];
    if !HasValue(env, "API_URL") && !HasValue(env, "API_KEY") {
      assert Join(missing, ", ") + "\n" == "API_URL, API_KEY\n";
      assert MissingPrefix + Join(missing, ", ") + "\n" == MissingPrefix + (Join(missing, ", ") + "\n");
    } else if !HasValue(env, "API_URL") {
      assert Join(missing, ", ") + "\n" == "API_URL\n";
      assert MissingPrefix + Join(missing, ", ") + "\n" == MissingPrefix + (Join(missing, ", ") + "\n");
    } else if !HasValue(env, "API_KEY") {
      assert Join(missing, ", ") + "\n" == "API_KEY\n";
      assert MissingPrefix + Join(missing, ", ") + "\n" == MissingPrefix + (Join(missing, ", ") + "\n");
    }
  }
}
