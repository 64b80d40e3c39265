/** The gold report's chat providers and the ordered fallback between
    them. */
module GoldFallback {
  import opened Wrappers
  import opened Text
  import opened JsonValues
  import opened Settings
  import opened Http
  import opened ChatCompletion
  import opened CompatProviders
  import opened PromptSentences

  // ---------------------------------------------------------------- providers

  /** The model each `generate_via_*` asks for. */
  function GoldModel(p: Provider): string {
    match p
    case Groq => "llama3-8b-8192"
    case OpenAI => "gpt-4o-mini"
    case DeepSeek => "deepseek-chat"
  }

  const GoldTemperature: real := 0.3
  const GoldMaxTokens: int := 600
  const GoldTimeout: int := 60

  /** The three keys the script reads when it loads, each
      `os.getenv("<P>_API_KEY", "").strip()`. */
  datatype ApiKeys = ApiKeys(groq: string, openai: string, deepseek: string)

  /** `os.getenv(KEY_VAR, "").strip()` for one provider. */
  function LoadKey(env: Env, p: Provider): string {
    Strip(EnvGet(env, KeyVariable(p), ""))
  }

  /** The three keys, read when the script is loaded. */
  function LoadKeys(env: Env): ApiKeys {
    ApiKeys(LoadKey(env, Groq), LoadKey(env, OpenAI), LoadKey(env, DeepSeek))
  }

  function KeyOf(keys: ApiKeys, p: Provider): string {
    match p
    case Groq => keys.groq
    case OpenAI => keys.openai
    case DeepSeek => keys.deepseek
  }

  /** Each provider's key is its variable, stripped: blank exactly when the
      variable is unset or only whitespace. */
  lemma LoadKeysStripped(env: Env, p: Provider)
    ensures KeyOf(LoadKeys(env), p) == Strip(EnvGet(env, KeyVariable(p), ""))
    ensures IsStripped(KeyOf(LoadKeys(env), p))
    ensures KeyOf(LoadKeys(env), p) == "" <==> KeyVariable(p) !in env || AllSpace(env[KeyVariable(p)])
  {
    assert KeyOf(LoadKeys(env), p) == LoadKey(env, p);
    assert AllSpace("");
  }

  /** The request body of `generate_via_*`. */
  function GoldPayload(p: Provider, prompt: string): map<string, Json> {
    map["model" := JStr(GoldModel(p)), "messages" := MessagesJson([Message(User, prompt)]),
        "temperature" := JFloat(GoldTemperature), "max_tokens" := JInt(GoldMaxTokens)]
  }

  /** The body holds the provider's model, the prompt as a single user
      message, temperature 0.3 and at most 600 tokens; no streaming and no
      extra fields. */
  lemma GoldPayloadShape(p: Provider, prompt: string)
    ensures IsPayload(GoldPayload(p, prompt), GoldModel(p), [Message(User, prompt)], GoldTemperature,
                      Some(GoldMaxTokens), false, map[])
  {
  }

  /** The POST of `generate_via_*`: the provider's fixed URL, the bearer and
      JSON headers, the body above and a 60-second timeout. */
  function GoldRequest(p: Provider, key: string, prompt: string): Request {
    Post(Endpoint(p), JsonBearerHeaders(key), GoldPayload(p, prompt), GoldTimeout)
  }

  /** The prompt travels unchanged, as the only message, to the provider's
      endpoint, with the key as bearer token. */
  lemma GoldRequestCarries(p: Provider, key: string, prompt: string)
    ensures var rq := GoldRequest(p, key, prompt);
            && rq.url == BaseUrl(p) + "/v1/chat/completions"
            && BearerToken(rq.headers["Authorization"]) == Some(key)
            && rq.payload["messages"].JArr?
            && DecodeMessages(rq.payload["messages"].items) == Some([Message(User, prompt)])
  {
    MessagesRoundTrip([Message(User, prompt)]);
  }

  /** Why one provider raised. */
  datatype GoldFailure = NoKey(variable: string) | CallFailed(failure: Failure) | Unreadable

  /** `(data.get("choices") or [{}])[0].get("message", {}).get("content", "")`:
      falsy or missing `choices` reads as `[{}]` and so gives ""; a missing
      `message` or `content` also gives ""; any step applied to the wrong
      kind of value raises. */
  function GoldContent(data: Json): Result<string, GoldFailure> {
    if !data.JObj? then Err(Unreadable)
    else
      var choices := GetOr(data.fields, "choices", JNull);
      if !Truthy(choices) then Ok("")
      else if !choices.JArr? || !choices.items[0].JObj? then Err(Unreadable)
      else
        var message := GetOr(choices.items[0].fields, "message", JObj(map[]));
        if !message.JObj? then Err(Unreadable)
        else
          match GetOr(message.fields, "content", JStr(""))
          case JStr(s) => Ok(s)
          case _ => Err(Unreadable)
  }

  /** The content found, then `.strip()`. */
  function GoldExtract(data: Json): Result<string, GoldFailure> {
    match GoldContent(data)
    case Ok(s) => Ok(Strip(s))
    case Err(e) => Err(e)
  }

  /** Where the strict lookup of the other clients finds text, the gold
      report finds the same text. */
  lemma GoldContentAgrees(data: Json)
    ensures ContentAt(data).Some? && ContentAt(data).value.JStr? ==>
              GoldContent(data) == Ok(ContentAt(data).value.s)
  {
    if ContentAt(data).Some? && ContentAt(data).value.JStr? {
      var choices := data.fields["choices"];
      assert choices.JArr? && choices.items != [];
      var message := choices.items[0].fields["message"];
      assert message.JObj? && "content" in message.fields;
      assert GetOr(data.fields, "choices", JNull) == choices;
      assert GetOr(choices.items[0].fields, "message", JObj(map[])) == message;
    }
  }

  /** ... and returns it stripped. */
  lemma GoldExtractAgrees(data: Json)
    ensures ContentAt(data).Some? && ContentAt(data).value.JStr? ==>
              GoldExtract(data) == Ok(Strip(ContentAt(data).value.s))
  {
    GoldContentAgrees(data);
  }

  /** A body whose `choices` is missing or empty reads as "" instead of
      raising. */
  lemma GoldExtractNoChoices(fields: map<string, Json>)
    requires !Truthy(GetOr(fields, "choices", JNull))
    ensures GoldExtract(JObj(fields)) == Ok("")
  {
  }

  /** A standard answer yields its content without surrounding whitespace. */
  lemma GoldExtractCompletion(content: string)
    ensures GoldExtract(CompletionBody(JStr(content))) == Ok(Strip(content))
  {
    var data := CompletionBody(JStr(content));
    assert ContentAt(data) == Some(JStr(content));
    GoldExtractAgrees(data);
  }

  /** `generate_via_groq` / `_openai` / `_deepseek`: a blank key raises
      before any request; otherwise the reply is received and read as above. */
  function GenerateVia(p: Provider, keys: ApiKeys, prompt: string, send: Request -> Outcome): Result<string, GoldFailure> {
    var key := KeyOf(keys, p);
    if key == "" then Err(NoKey(KeyVariable(p)))
    else match ReceiveJson(send(GoldRequest(p, key, prompt)))
      case Err(e) => Err(CallFailed(e))
      case Ok(data) =>
        match GoldExtract(data)
        case Ok(s) => Ok(s)
        case Err(_) => Err(Unreadable)
  }

  /** A provider raises for a missing key exactly when its key is blank; it
      returns only when its reply was received and read, and then returns
      exactly what was read from it. */
  lemma GenerateViaCases(p: Provider, keys: ApiKeys, prompt: string, send: Request -> Outcome)
    ensures var r := GenerateVia(p, keys, prompt, send);
            && (KeyOf(keys, p) == "" <==> r == Err(NoKey(KeyVariable(p))))
            && (r.Ok? ==> var reply := ReceiveJson(send(GoldRequest(p, KeyOf(keys, p), prompt)));
                          reply.Ok? && r == GoldExtract(reply.value))
  {
  }

  /** The requests one attempt puts on the wire: none when its key is blank. */
  function AttemptRequests(p: Provider, keys: ApiKeys, prompt: string): seq<Request> {
    if KeyOf(keys, p) == "" then [] else [GoldRequest(p, KeyOf(keys, p), prompt)]
  }

  /** One provider's turn: what its `generate_via_*` returned or raised, and
      the requests it sent on the way. */
  datatype Turn = Turn(result: Result<string, GoldFailure>, requests: seq<Request>)


  /** The order `generate_summary_with_fallback` tries the providers in. */
  const FallbackOrder: seq<Provider> := [Groq, OpenAI, DeepSeek]

  /** The turn each provider of `ps` would take, in order. */
  function TurnsOf(ps: seq<Provider>, keys: ApiKeys, prompt: string, send: Request -> Outcome): (r: seq<Turn>)
    ensures |r| == |ps|
  {
    if ps == [] then []
    else [Turn(GenerateVia(ps[0], keys, prompt, send), AttemptRequests(ps[0], keys, prompt))]
           + TurnsOf(ps[1..], keys, prompt, send)
  }

  /** The `i`-th turn is that of the `i`-th provider. */
  lemma {:induction false} TurnsOfAt(ps: seq<Provider>, keys: ApiKeys, prompt: string, send: Request -> Outcome, i: nat)
    requires i < |ps|
    ensures TurnsOf(ps, keys, prompt, send)[i]
            == Turn(GenerateVia(ps[i], keys, prompt, send), AttemptRequests(ps[i], keys, prompt))
  {
    if i > 0 {
      TurnsOfAt(ps[1..], keys, prompt, send, i - 1);
    }
  }

  /** The turns of the fallback order. */
  function Turns(keys: ApiKeys, prompt: string, send: Request -> Outcome): (r: seq<Turn>)
    ensures |r| == |FallbackOrder|
  {
    TurnsOf(FallbackOrder, keys, prompt, send)
  }

  /** The summary text and every request sent to obtain it. */
  datatype Summary = Summary(text: string, requests: seq<Request>)

  /** The requests of a run of turns, in order. */
  function Sent(turns: seq<Turn>): seq<Request> {
    if turns == [] then [] else turns[0].requests + Sent(turns[1..])
  }

  /** The loop of `generate_summary_with_fallback`: the first turn that
      returns gives the summary and ends the loop; when every turn raises,
      the fixed sentence. */
  function FirstAnswer(turns: seq<Turn>): Summary {
    if turns == [] then Summary(Placeholder, [])
    else if turns[0].result.Ok? then Summary(turns[0].result.value, turns[0].requests)
    else
      var rest := FirstAnswer(turns[1..]);
      Summary(rest.text, turns[0].requests + rest.requests)
  }

  /** The first turn that returns decides the summary, whatever it returned
      (an empty text included), and no later provider is contacted. */
  lemma {:induction false} FirstAnswerFirstSuccess(turns: seq<Turn>, i: nat)
    requires i < |turns| && turns[i].result.Ok?
    requires forall j :: 0 <= j < i ==> turns[j].result.Err?
    ensures FirstAnswer(turns) == Summary(turns[i].result.value, Sent(turns[..i + 1]))
  {
    if i == 0 {
      assert turns[..1][1..] == [];
    } else {
      assert turns[0].result.Err?;
      assert turns[1..][i - 1] == turns[i];
      FirstAnswerFirstSuccess(turns[1..], i - 1);
      assert turns[..i + 1][1..] == turns[1..][..i];
    }
  }

  /** When every turn raises, the summary is the fixed sentence and never an
      exception, and every turn's requests went out. */
  lemma {:induction false} FirstAnswerAllFail(turns: seq<Turn>)
    requires forall j :: 0 <= j < |turns| ==> turns[j].result.Err?
    ensures FirstAnswer(turns) == Summary(Placeholder, Sent(turns))
  {
    if turns != [] {
      assert turns[0].result.Err?;
      FirstAnswerAllFail(turns[1..]);
    }
  }

  /** What the loop still owes after `i` turns that raised and sent `sent`:
      the answer of the remaining turns, after the requests already sent. */
  function Pending(turns: seq<Turn>, i: nat, sent: seq<Request>): Summary
    requires i <= |turns|
  {
    var rest := FirstAnswer(turns[i..]);
    Summary(rest.text, sent + rest.requests)
  }

  /** One step of the loop: a turn that returns ends it with its text and
      everything sent so far; one that raises leaves the rest owed, after
      its own requests. */
  lemma {:induction false} FallbackStep(turns: seq<Turn>, i: nat, sent: seq<Request>)
    requires i < |turns| && FirstAnswer(turns) == Pending(turns, i, sent)
    ensures turns[i].result.Ok? ==>
              FirstAnswer(turns) == Summary(turns[i].result.value, sent + turns[i].requests)
    ensures turns[i].result.Err? ==> FirstAnswer(turns) == Pending(turns, i + 1, sent + turns[i].requests)
  {
    assert turns[i..][0] == turns[i];
    assert turns[i..][1..] == turns[i + 1..];
  }

  /** `generate_summary_with_fallback(prompt)`. */
  method GenerateSummaryWithFallback(prompt: string, keys: ApiKeys, send: Request -> Outcome)
    returns (summary: string, requests: seq<Request>)
    ensures Summary(summary, requests) == FirstAnswer(Turns(keys, prompt, send))
  {
    ghost var turns := Turns(keys, prompt, send);
    var providers := FallbackOrder;
    requests := [];
    var i := 0;
    assert turns[0..] == turns;
    while i < |providers|
      invariant 0 <= i <= |providers|
      invariant FirstAnswer(turns) == Pending(turns, i, requests)
    {
      var turn := Turn(GenerateVia(providers[i], keys, prompt, send), AttemptRequests(providers[i], keys, prompt));
      TurnsOfAt(providers, keys, prompt, send, i);
      assert turn == turns[i];
      FallbackStep(turns, i, requests);
      requests := requests + turn.requests;
      if turn.result.Ok? {
        summary := turn.result.value;
        assert FirstAnswer(turns) == Summary(summary, requests);
        return;
      }
      i := i + 1;
    }
    assert turns[i..] == [];
    assert requests + [] == requests;
    assert FirstAnswer(turns) == Summary(Placeholder, requests);
    summary := Placeholder;
  }

  /** A Groq call that returns means Groq alone is asked. */
  lemma GroqAnswersAlone(keys: ApiKeys, prompt: string, send: Request -> Outcome)
    requires GenerateVia(Groq, keys, prompt, send).Ok?
    ensures FirstAnswer(Turns(keys, prompt, send))
            == Summary(GenerateVia(Groq, keys, prompt, send).value, [GoldRequest(Groq, KeyOf(keys, Groq), prompt)])
  {
    var turns := Turns(keys, prompt, send);
    TurnsOfAt(FallbackOrder, keys, prompt, send, 0);
    GenerateViaCases(Groq, keys, prompt, send);
    assert turns[0] == Turn(GenerateVia(Groq, keys, prompt, send), [GoldRequest(Groq, KeyOf(keys, Groq), prompt)]);
  }

  /** A 200 answer without `choices` is read as an empty text. */
  lemma EmptyAnswerRead(p: Provider, keys: ApiKeys, prompt: string, send: Request -> Outcome)
    requires KeyOf(keys, p) != ""
    requires send(GoldRequest(p, KeyOf(keys, p), prompt)) == Reply(200, Some(JObj(map[])))
    ensures GenerateVia(p, keys, prompt, send) == Ok("")
  {
    assert GoldContent(JObj(map[])) == Ok("");
    assert Strip("") == "";
  }

  /** ... so it is an empty summary, not a failure: the fallback stops at
      Groq. */
  lemma EmptyAnswerStops(keys: ApiKeys, prompt: string, send: Request -> Outcome)
    requires KeyOf(keys, Groq) != ""
    requires send(GoldRequest(Groq, KeyOf(keys, Groq), prompt)) == Reply(200, Some(JObj(map[])))
    ensures FirstAnswer(Turns(keys, prompt, send)) == Summary("", [GoldRequest(Groq, KeyOf(keys, Groq), prompt)])
  {
    EmptyAnswerRead(Groq, keys, prompt, send);
    GroqAnswersAlone(keys, prompt, send);
  }

  /** Turns that all raise before sending anything leave the fixed
      sentence and an empty wire. */
  lemma {:induction false} FirstAnswerSilent(turns: seq<Turn>)
    requires forall j :: 0 <= j < |turns| ==> turns[j].result.Err? && turns[j].requests == []
    ensures FirstAnswer(turns) == Summary(Placeholder, [])
  {
    if turns != [] {
      assert turns[0].result.Err? && turns[0].requests == [];
      FirstAnswerSilent(turns[1..]);
    }
  }

  /** A provider without a key raises before sending anything. */
  lemma KeylessTurn(p: Provider, keys: ApiKeys, prompt: string, send: Request -> Outcome)
    requires KeyOf(keys, p) == ""
    ensures GenerateVia(p, keys, prompt, send) == Err(NoKey(KeyVariable(p))) && AttemptRequests(p, keys, prompt) == []
  {
  }

  /** Providers none of which has a key send nothing and leave the fixed
      sentence. */
  lemma {:induction false} KeylessSilent(ps: seq<Provider>, keys: ApiKeys, prompt: string, send: Request -> Outcome)
    requires forall j :: 0 <= j < |ps| ==> KeyOf(keys, ps[j]) == ""
    ensures FirstAnswer(TurnsOf(ps, keys, prompt, send)) == Summary(Placeholder, [])
  {
    if ps != [] {
      KeylessTurn(ps[0], keys, prompt, send);
      KeylessSilent(ps[1..], keys, prompt, send);
      assert TurnsOf(ps, keys, prompt, send)[1..] == TurnsOf(ps[1..], keys, prompt, send);
    }
  }

  /** With no key configured at all, nothing is sent and the fixed sentence
      comes back. */
  lemma NoKeysNoRequests(keys: ApiKeys, prompt: string, send: Request -> Outcome)
    requires KeyOf(keys, Groq) == "" && KeyOf(keys, OpenAI) == "" && KeyOf(keys, DeepSeek) == ""
    ensures FirstAnswer(Turns(keys, prompt, send)) == Summary(Placeholder, [])
  {
    KeylessSilent(FallbackOrder, keys, prompt, send);
  }
}
