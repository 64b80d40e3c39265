/** How the clients read their configuration: an explicit argument, else an
    environment variable, else a default, and always stripped. */
module Settings {
  import opened Wrappers
  import opened Text

  /** `os.environ` at the moment a constructor runs. */
  type Env = map<string, string>

  /** `os.environ.get(name, default)`: a variable set to "" is returned as "". */
  function EnvGet(env: Env, name: string, default: string): string {
    if name in env then env[name] else default
  }

  /** An optional string argument counts as given only when it is truthy:
      `None` and "" both fall through Python's `or`. */
  predicate Supplied(arg: Option<string>) {
    arg.Some? && arg.value != ""
  }

  /** `arg or fallback` on an optional string. */
  function OrElse(arg: Option<string>, fallback: string): string {
    if Supplied(arg) then arg.value else fallback
  }

  /** `(arg or os.environ.get(name, default)).strip()`: the argument wins when
      it is truthy, then the variable when it is set (even to ""), then the
      default; the result carries no surrounding whitespace. */
  function Resolve(arg: Option<string>, env: Env, name: string, default: string): (r: string)
    ensures IsStripped(r)
    ensures Supplied(arg) ==> r == Strip(arg.value)
    ensures !Supplied(arg) && name in env ==> r == Strip(env[name])
    ensures !Supplied(arg) && name !in env ==> r == Strip(default)
  {
    Strip(OrElse(arg, EnvGet(env, name, default)))
  }

  /** A truthy argument makes the environment irrelevant, and an empty
      argument is the same as no argument. */
  lemma ResolvePrecedence(arg: string, env1: Env, env2: Env, name: string, default: string)
    ensures arg != "" ==> Resolve(Some(arg), env1, name, default) == Resolve(Some(arg), env2, name, default)
    ensures Resolve(Some(""), env1, name, default) == Resolve(None, env1, name, default)
  {
    if arg != "" {
      assert OrElse(Some(arg), EnvGet(env1, name, default)) == arg == OrElse(Some(arg), EnvGet(env2, name, default));
    }
    assert OrElse(Some(""), EnvGet(env1, name, default)) == OrElse(None, EnvGet(env1, name, default));
  }

  /** Why a client could not be built. */
  datatype ConfigError =
    | MissingKey(variable: string)       // a provider's key resolved to ""
    | AbsentKey                          // the OpenAI-compatible base got a falsy key
    | UnsupportedProvider(name: string)  // LLMClient was asked for anything but piapi

  /** A resolved key and model. */
  datatype Credentials = Credentials(apiKey: string, model: string)

  /** The constructor prologue every provider client shares:
      `api_key = (api_key or env.get(KEY_VAR, "")).strip()`,
      `model = (model or env.get(MODEL_VAR, default)).strip()`, and a
      `RuntimeError` when the key is empty. A key made only of whitespace is
      therefore rejected; an accepted key is non-empty and stripped. */
  function ResolveCredentials(apiKey: Option<string>, model: Option<string>, env: Env,
                              keyVariable: string, modelVariable: string, defaultModel: string)
    : (r: Result<Credentials, ConfigError>)
    ensures r.Ok? <==> !AllSpace(OrElse(apiKey, EnvGet(env, keyVariable, "")))
    ensures r.Ok? ==> r.value.apiKey != "" && IsStripped(r.value.apiKey) && IsStripped(r.value.model)
    ensures r.Ok? ==> r.value.apiKey == Resolve(apiKey, env, keyVariable, "")
    ensures r.Ok? ==> r.value.model == Resolve(model, env, modelVariable, defaultModel)
    ensures r.Err? ==> r.error == MissingKey(keyVariable)
  {
    var key := Resolve(apiKey, env, keyVariable, "");
    var chosen := Resolve(model, env, modelVariable, defaultModel);
    if key == "" then Err(MissingKey(keyVariable)) else Ok(Credentials(key, chosen))
  }

  /** An explicit key with some non-space character is taken (stripped) and
      the environment's key is never consulted. */
  lemma ExplicitKeyWins(apiKey: string, model: Option<string>, env: Env,
                        keyVariable: string, modelVariable: string, defaultModel: string)
    requires !AllSpace(apiKey)
    ensures ResolveCredentials(Some(apiKey), model, env, keyVariable, modelVariable, defaultModel).Ok?
    ensures ResolveCredentials(Some(apiKey), model, env, keyVariable, modelVariable, defaultModel).value.apiKey
            == Strip(apiKey)
  {
  }

  /** With neither an argument nor the variable, the model is the default. */
  lemma DefaultModelUsed(apiKey: Option<string>, env: Env, keyVariable: string, modelVariable: string,
                         defaultModel: string)
    requires modelVariable !in env
    requires IsStripped(defaultModel)
    requires ResolveCredentials(apiKey, None, env, keyVariable, modelVariable, defaultModel).Ok?
    ensures ResolveCredentials(apiKey, None, env, keyVariable, modelVariable, defaultModel).value.model
            == defaultModel
  {
  }
}
