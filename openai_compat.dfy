/** The base client for providers that speak the OpenAI Chat Completions
    protocol at some endpoint. */
module OpenAICompat {
  import opened Wrappers
  import opened JsonValues
  import opened Http
  import opened ChatCompletion
  import opened Settings
  import opened Text

  /** The three strings the base constructor stores. */
  datatype CompatFields = CompatFields(apiKey: string, model: string, endpoint: string)

  /** `OpenAICompatClient.__init__`: raises when `api_key` is empty, then
      stores key, model and endpoint stripped. The check looks at the key
      BEFORE stripping it. */
  function CompatConfig(apiKey: string, model: string, endpoint: string): (r: Result<CompatFields, ConfigError>)
    ensures r.Ok? <==> apiKey != ""
    ensures r.Ok? ==> IsStripped(r.value.apiKey) && IsStripped(r.value.model) && IsStripped(r.value.endpoint)
    ensures r.Ok? ==> |r.value.apiKey| <= |apiKey|
    ensures r.Ok? ==> r.value == CompatFields(Strip(apiKey), Strip(model), Strip(endpoint))
    ensures r.Err? ==> r.error == AbsentKey
  {
    if apiKey == "" then Err(AbsentKey)
    else Ok(CompatFields(Strip(apiKey), Strip(model), Strip(endpoint)))
  }

  /** Because the guard runs before the strip, a key made only of whitespace
      gets through and is stored as "", and the resulting `Authorization`
      value "Bearer " is not an RFC 6750 credential. */
  lemma BlankKeyAccepted(apiKey: string, model: string, endpoint: string)
    requires apiKey != "" && AllSpace(apiKey)
    ensures CompatConfig(apiKey, model, endpoint).Ok?
    ensures CompatConfig(apiKey, model, endpoint).value.apiKey == ""
    ensures !IsBearerCredentials(JsonBearerHeaders(CompatConfig(apiKey, model, endpoint).value.apiKey)["Authorization"])
  {
    BearerRoundTrip("");
  }

  /** Strings that are already stripped are stored as given. */
  lemma StrippedFieldsKept(apiKey: string, model: string, endpoint: string)
    requires apiKey != "" && IsStripped(apiKey) && IsStripped(model) && IsStripped(endpoint)
    ensures CompatConfig(apiKey, model, endpoint) == Ok(CompatFields(apiKey, model, endpoint))
  {
  }

  class OpenAICompatClient {
    const apiKey: string
    const model: string
    const endpoint: string
    const timeout: int

    constructor (fields: CompatFields, timeout: int)
      ensures apiKey == fields.apiKey && model == fields.model && endpoint == fields.endpoint
      ensures this.timeout == timeout
    {
      apiKey := fields.apiKey;
      model := fields.model;
      endpoint := fields.endpoint;
      this.timeout := timeout;
    }

    /** `OpenAICompatClient(api_key, model, endpoint, timeout)`. */
    static method New(apiKey: string, model: string, endpoint: string, timeout: int)
      returns (r: Result<OpenAICompatClient, ConfigError>)
      ensures r.Ok? <==> CompatConfig(apiKey, model, endpoint).Ok?
      ensures r.Ok? ==> fresh(r.value) && r.value.timeout == timeout
      ensures r.Ok? ==> CompatFields(r.value.apiKey, r.value.model, r.value.endpoint)
                        == CompatConfig(apiKey, model, endpoint).value
      ensures r.Err? ==> r.error == AbsentKey
    {
      match CompatConfig(apiKey, model, endpoint)
      case Err(e) =>
        r := Err(e);
      case Ok(fields) =>
        var client := new OpenAICompatClient(fields, timeout);
        r := Ok(client);
    }

    /** `chat()`: like PiAPI's but posted to the client's own endpoint and
        never with a `stream` field. */
    method Chat(messages: seq<Message>, temperature: real, maxTokens: Option<int>,
                extra: map<string, Json>, send: Request -> Outcome, repr: Json -> string)
      returns (request: Request, reply: Result<Json, Failure>)
      ensures request.url == endpoint && request.timeout == timeout
      ensures request.headers == JsonBearerHeaders(apiKey)
      ensures IsPayload(request.payload, model, messages, temperature, maxTokens, false, extra)
      ensures reply == ChatReply(send(request), repr)
    {
      var payload := BuildPayload(model, messages, temperature, maxTokens, false, extra);
      var headers := JsonBearerHeaders(apiKey);
      request := Post(endpoint, headers, payload, timeout);
      reply := ChatReply(send(request), repr);
    }
  }
}
