/** `LLMClient`: picks a provider by name and builds the system + user
    conversation. Only PiAPI is wired in; there is no fallback here. */
module Llm {
  import opened Wrappers
  import opened JsonValues
  import opened Http
  import opened ChatCompletion
  import opened Settings
  import opened Text
  import opened PiApi

  const ProviderVariable: string := "LLM_PROVIDER"

  /** `(provider or os.environ.get("LLM_PROVIDER", "")).strip().lower()`:
      no surrounding whitespace and no upper-case letter. */
  function NormalizeProvider(arg: Option<string>, env: Env): (r: string)
    ensures IsStripped(r)
    ensures forall i :: 0 <= i < |r| ==> !IsUpper(r[i])
    ensures |r| <= |OrElse(arg, EnvGet(env, ProviderVariable, ""))|
    ensures r == Lower(Resolve(arg, env, ProviderVariable, ""))
  {
    var name := Resolve(arg, env, ProviderVariable, "");
    LowerKeepsStripped(name);
    Lower(name)
  }

  /** Python's `" PiAPI ".strip()` is "PiAPI". */
  lemma StripPiApi()
    ensures Strip(" PiAPI ") == "PiAPI"
  {
    var s := " PiAPI ";
    assert s[0] == ' ' && s[1..] == "PiAPI ";
    assert !IsSpace("PiAPI "[0]);
    assert TrimStart(s[1..]) == "PiAPI ";
    assert "PiAPI "[..5] == "PiAPI";
  }

  /** Python's `"PiAPI".lower()` is "piapi". */
  lemma LowerPiApi()
    ensures Lower("PiAPI") == "piapi"
  {
    var low := Lower("PiAPI");
    assert low[0] == 'p' && low[1] == 'i' && low[2] == 'a' && low[3] == 'p' && low[4] == 'i';
  }

  /** " PiAPI " names the same provider as "piapi". */
  lemma NormalizeExample(env: Env)
    ensures NormalizeProvider(Some(" PiAPI "), env) == "piapi"
  {
    StripPiApi();
    LowerPiApi();
  }

  /** The provider name after auto-selection: an empty name becomes "piapi"
      exactly when `PIAPI_API_KEY` is set to something non-empty. */
  function SelectedProvider(arg: Option<string>, env: Env): (r: string)
    ensures r == NormalizeProvider(arg, env) || r == "piapi"
    ensures r == "piapi" <==> NormalizeProvider(arg, env) == "piapi"
                              || (NormalizeProvider(arg, env) == "" && EnvGet(env, KeyVariable, "") != "")
    ensures r == "" <==> NormalizeProvider(arg, env) == "" && EnvGet(env, KeyVariable, "") == ""
  {
    var name := NormalizeProvider(arg, env);
    if name == "" && EnvGet(env, KeyVariable, "") != "" then "piapi" else name
  }

  /** Naming any other provider, "groq", "openai" and "deepseek" included,
      selects exactly that name, which `LLMClient.New` then refuses. */
  lemma NamedProviderKept(name: string, env: Env)
    requires name != "" && IsStripped(name)
    requires forall i :: 0 <= i < |name| ==> !IsUpper(name[i])
    ensures SelectedProvider(Some(name), env) == name
  {
    assert Lower(name) == name;
  }

  class LLMClient {
    const provider: string
    const client: PiApiClient

    constructor (client: PiApiClient)
      ensures provider == "piapi" && this.client == client
    {
      provider := "piapi";
      this.client := client;
    }

    /** The first statements of `LLMClient(provider)`: strip, lower, and
        fall back to "piapi" when the name is empty and a PiAPI key is set. */
    static method ChooseProvider(provider: Option<string>, env: Env) returns (name: string)
      ensures name == SelectedProvider(provider, env)
    {
      name := Strip(OrElse(provider, EnvGet(env, ProviderVariable, "")));
      name := Lower(name);
      if name == "" {
        if EnvGet(env, KeyVariable, "") != "" {
          name := "piapi";
        }
      }
    }

    /** `LLMClient(provider)`: the name is normalised in stages, auto-selected
        when empty, and anything but "piapi" raises; for "piapi" a PiAPI
        client is built from the environment alone, and its own key error
        propagates. */
    static method New(provider: Option<string>, env: Env) returns (r: Result<LLMClient, ConfigError>)
      ensures SelectedProvider(provider, env) != "piapi" ==> r == Err(UnsupportedProvider(SelectedProvider(provider, env)))
      ensures SelectedProvider(provider, env) == "piapi" ==>
                match PiApiCredentials(None, None, env)
                case Err(e) => r == Err(e)
                case Ok(c) =>
                  && r.Ok? && fresh(r.value) && fresh(r.value.client) && r.value.provider == "piapi"
                  && r.value.client.apiKey == c.apiKey && r.value.client.model == c.model
                  && r.value.client.timeout == 60
    {
      var name := ChooseProvider(provider, env);
      if name == "piapi" {
        var made := PiApiClient.New(None, None, 60, env);
        match made
        case Err(e) =>
          r := Err(e);
        case Ok(c) =>
          var llm := new LLMClient(c);
          r := Ok(llm);
      } else {
        r := Err(UnsupportedProvider(name));
      }
    }

    /** `generate()`: the system message first when the system prompt is
        non-empty, the user message always last, and one `chat` call on the
        PiAPI client with the caller's temperature and max_tokens and no
        streaming or extra fields; its answer is returned as is. */
    method Generate(systemPrompt: string, userPrompt: string, temperature: real, maxTokens: Option<int>,
                    send: Request -> Outcome, repr: Json -> string)
      returns (messages: seq<Message>, request: Request, reply: Result<Json, Failure>)
      ensures |messages| == (if systemPrompt == "" then 1 else 2)
      ensures messages[|messages| - 1] == Message(User, userPrompt)
      ensures systemPrompt != "" ==> messages[0] == Message(System, systemPrompt)
      ensures request.url == PiApiUrl && request.headers == JsonBearerHeaders(client.apiKey)
              && request.timeout == client.timeout
      ensures IsPayload(request.payload, client.model, messages, temperature, maxTokens, false, map[])
      ensures reply == ChatReply(send(request), repr)
    {
      messages := [];
      if systemPrompt != "" {
        messages := messages + [Message(System, systemPrompt)];
      }
      messages := messages + [Message(User, userPrompt)];
      request, reply := client.Chat(messages, temperature, maxTokens, false, map[], send, repr);
    }
  }
}
