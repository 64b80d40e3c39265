/** DeepSeek, Groq and OpenAI: thin subclasses of the OpenAI-compatible base
    that differ only in endpoint, variable names and default model. */
module CompatProviders {
  import opened Wrappers
  import opened Settings
  import opened Text
  import opened OpenAICompat

  datatype Provider = DeepSeek | Groq | OpenAI

  /** The path every provider serves Chat Completions under. */
  const ChatPath: string := "/v1/chat/completions"

  function BaseUrl(p: Provider): string {
    match p
    case DeepSeek => "https://api.deepseek.com"
    case Groq => "https://api.groq.com/openai"
    case OpenAI => "https://api.openai.com"
  }

  /** The fixed `*_ENDPOINT` URL of each subclass. */
  function Endpoint(p: Provider): string {
    BaseUrl(p) + ChatPath
  }

  function KeyVariable(p: Provider): string {
    match p
    case DeepSeek => "DEEPSEEK_API_KEY"
    case Groq => "GROQ_API_KEY"
    case OpenAI => "OPENAI_API_KEY"
  }

  function ModelVariable(p: Provider): string {
    match p
    case DeepSeek => "DEEPSEEK_MODEL"
    case Groq => "GROQ_MODEL"
    case OpenAI => "OPENAI_MODEL"
  }

  function DefaultModel(p: Provider): string {
    match p
    case DeepSeek => "deepseek-chat"
    case Groq => "llama-3.1-70b-versatile"
    case OpenAI => "gpt-4o-mini"
  }

  lemma FixedStringsStripped(p: Provider)
    ensures IsStripped(Endpoint(p)) && IsStripped(DefaultModel(p))
  {
    var e, m := Endpoint(p), DefaultModel(p);
    assert e[0] == BaseUrl(p)[0] == 'h' && e[|e| - 1] == 's';
    assert m[0] in "dlg" && m[|m| - 1] in "tei";
  }

  /** Key and model as the subclass constructor resolves them, before it
      hands them to the base. */
  function ProviderCredentials(p: Provider, apiKey: Option<string>, model: Option<string>, env: Env)
    : (r: Result<Credentials, ConfigError>)
    ensures r.Ok? <==> !AllSpace(OrElse(apiKey, EnvGet(env, KeyVariable(p), "")))
    ensures r.Ok? ==> r.value.apiKey != "" && IsStripped(r.value.apiKey) && IsStripped(r.value.model)
    ensures r.Ok? ==> r.value == Credentials(Resolve(apiKey, env, KeyVariable(p), ""),
                                             Resolve(model, env, ModelVariable(p), DefaultModel(p)))
    ensures r.Err? ==> r.error == MissingKey(KeyVariable(p))
  {
    ResolveCredentials(apiKey, model, env, KeyVariable(p), ModelVariable(p), DefaultModel(p))
  }

  /** What the subclass hands on always passes the base guard and is stored
      as is: the base's check-before-strip gap is unreachable through a
      subclass, and the endpoint is the provider's fixed URL. */
  lemma SubclassSatisfiesBase(p: Provider, apiKey: Option<string>, model: Option<string>, env: Env)
    requires ProviderCredentials(p, apiKey, model, env).Ok?
    ensures var c := ProviderCredentials(p, apiKey, model, env).value;
            CompatConfig(c.apiKey, c.model, Endpoint(p)) == Ok(CompatFields(c.apiKey, c.model, Endpoint(p)))
  {
    var c := ProviderCredentials(p, apiKey, model, env).value;
    FixedStringsStripped(p);
    StrippedFieldsKept(c.apiKey, c.model, Endpoint(p));
  }

  /** A key that is only whitespace is refused by the subclass itself. */
  lemma BlankKeyRejected(p: Provider, apiKey: string, model: Option<string>, env: Env)
    requires apiKey != "" && AllSpace(apiKey)
    ensures ProviderCredentials(p, Some(apiKey), model, env) == Err(MissingKey(KeyVariable(p)))
  {
  }

  /** With no model argument and no model variable, each provider uses its
      own default. */
  lemma ProviderDefaultModel(p: Provider, apiKey: Option<string>, env: Env)
    requires ModelVariable(p) !in env
    requires ProviderCredentials(p, apiKey, None, env).Ok?
    ensures ProviderCredentials(p, apiKey, None, env).value.model == DefaultModel(p)
  {
    FixedStringsStripped(p);
  }

  /** `DeepSeekClient(...)`, `GroqClient(...)`, `OpenAIClient(...)`: a base
      client at the provider's endpoint with the resolved key and model, or
      the provider's missing-key error. */
  method NewClient(p: Provider, apiKey: Option<string>, model: Option<string>, timeout: int, env: Env)
    returns (r: Result<OpenAICompatClient, ConfigError>)
    ensures match ProviderCredentials(p, apiKey, model, env)
            case Err(e) => r == Err(e)
            case Ok(c) =>
              && r.Ok? && fresh(r.value)
              && Credentials(r.value.apiKey, r.value.model) == c
              && r.value.endpoint == Endpoint(p) && r.value.timeout == timeout
  {
    var credentials := ProviderCredentials(p, apiKey, model, env);
    if credentials.Err? {
      return Err(credentials.error);
    }
    var c := credentials.value;
    var endpoint := Endpoint(p);
    SubclassSatisfiesBase(p, apiKey, model, env);
    r := OpenAICompatClient.New(c.apiKey, c.model, endpoint, timeout);
  }
}
