/** The PiAPI client: its own credential resolution and a `chat` call that
    posts to the fixed PiAPI endpoint. */
module PiApi {
  import opened Wrappers
  import opened JsonValues
  import opened Http
  import opened ChatCompletion
  import opened Settings
  import opened Text

  const PiApiUrl: string := "https://api.piapi.ai/v1/chat/completions"
  const KeyVariable: string := "PIAPI_API_KEY"
  const ModelVariable: string := "PIAPI_MODEL"
  const DefaultModel: string := "gpt-4o-mini"

  /** Key and model as `PiAPIClient.__init__` resolves them. */
  function PiApiCredentials(apiKey: Option<string>, model: Option<string>, env: Env)
    : (r: Result<Credentials, ConfigError>)
    ensures r.Ok? <==> !AllSpace(OrElse(apiKey, EnvGet(env, KeyVariable, "")))
    ensures r.Ok? ==> r.value.apiKey != "" && IsStripped(r.value.apiKey)
    ensures r.Ok? ==> r.value == Credentials(Resolve(apiKey, env, KeyVariable, ""),
                                             Resolve(model, env, ModelVariable, DefaultModel))
    ensures r.Err? ==> r.error == MissingKey(KeyVariable)
  {
    ResolveCredentials(apiKey, model, env, KeyVariable, ModelVariable, DefaultModel)
  }

  /** With no arguments and only `PIAPI_API_KEY` set to a stripped key, the
      client uses that key and the model "gpt-4o-mini". */
  lemma PiApiDefaults(key: string, env: Env)
    requires KeyVariable in env && env[KeyVariable] == key
    requires key != "" && IsStripped(key)
    requires ModelVariable !in env
    ensures PiApiCredentials(None, None, env) == Ok(Credentials(key, DefaultModel))
  {
    assert IsStripped(DefaultModel);
  }

  class PiApiClient {
    const apiKey: string
    const model: string
    const timeout: int

    /** What a constructed client guarantees: a usable bearer key. */
    ghost predicate Valid() {
      apiKey != "" && IsStripped(apiKey) && IsStripped(model)
    }

    constructor (credentials: Credentials, timeout: int)
      requires credentials.apiKey != "" && IsStripped(credentials.apiKey) && IsStripped(credentials.model)
      ensures apiKey == credentials.apiKey && model == credentials.model && this.timeout == timeout
      ensures Valid()
    {
      apiKey := credentials.apiKey;
      model := credentials.model;
      this.timeout := timeout;
    }

    /** `PiAPIClient(api_key, model, timeout)`: raises when the resolved key
        is empty, otherwise a client holding the resolved key and model. */
    static method New(apiKey: Option<string>, model: Option<string>, timeout: int, env: Env)
      returns (r: Result<PiApiClient, ConfigError>)
      ensures r.Ok? <==> PiApiCredentials(apiKey, model, env).Ok?
      ensures r.Ok? ==> fresh(r.value) && r.value.Valid() && r.value.timeout == timeout
      ensures r.Ok? ==> Credentials(r.value.apiKey, r.value.model) == PiApiCredentials(apiKey, model, env).value
      ensures r.Err? ==> r.error == MissingKey(KeyVariable)
    {
      var credentials := PiApiCredentials(apiKey, model, env);
      match credentials
      case Err(e) =>
        r := Err(e);
      case Ok(c) =>
        var client := new PiApiClient(c, timeout);
        r := Ok(client);
    }

    /** `chat()`: one POST to the PiAPI endpoint with the client's key, the
        payload described by `IsPayload`, and the reply that `ChatReply`
        derives from whatever the network answered. */
    method Chat(messages: seq<Message>, temperature: real, maxTokens: Option<int>, stream: bool,
                extra: map<string, Json>, send: Request -> Outcome, repr: Json -> string)
      returns (request: Request, reply: Result<Json, Failure>)
      ensures request.url == PiApiUrl && request.timeout == timeout
      ensures request.headers == JsonBearerHeaders(apiKey)
      ensures IsPayload(request.payload, model, messages, temperature, maxTokens, stream, extra)
      ensures reply == ChatReply(send(request), repr)
    {
      var payload := BuildPayload(model, messages, temperature, maxTokens, stream, extra);
      var headers := JsonBearerHeaders(apiKey);
      request := Post(PiApiUrl, headers, payload, timeout);
      reply := ChatReply(send(request), repr);
    }
  }
}
