/** The OpenAI-style Chat Completions exchange shared by every client: the
    message list, the request payload and how the answer text is dug out of
    the response document. */
module ChatCompletion {
  import opened Wrappers
  import opened JsonValues
  import opened Http

  // ---------------------------------------------------------------- messages

  datatype Role = System | User | Assistant

  function RoleName(r: Role): string {
    match r
    case System => "system"
    case User => "user"
    case Assistant => "assistant"
  }

  function RoleNamed(name: string): (r: Option<Role>)
    ensures r.Some? ==> RoleName(r.value) == name
  {
    if name == "system" then Some(System)
    else if name == "user" then Some(User)
    else if name == "assistant" then Some(Assistant)
    else None
  }

  /** One `{"role": ..., "content": ...}` entry of `messages`. */
  datatype Message = Message(role: Role, content: string)

  function MessageJson(m: Message): Json {
    JObj(map["role" := JStr(RoleName(m.role)), "content" := JStr(m.content)])
  }

  /** The `messages` list as it travels in the payload. */
  function MessagesJson(ms: seq<Message>): (j: Json)
    ensures j.JArr? && |j.items| == |ms|
  {
    JArr(seq(|ms|, i requires 0 <= i < |ms| => MessageJson(ms[i])))
  }

  function DecodeMessage(j: Json): Option<Message> {
    if j.JObj? && "role" in j.fields && "content" in j.fields
       && j.fields["role"].JStr? && j.fields["content"].JStr?
       && RoleNamed(j.fields["role"].s).Some?
    then Some(Message(RoleNamed(j.fields["role"].s).value, j.fields["content"].s))
    else None
  }

  function DecodeMessages(items: seq<Json>): Option<seq<Message>> {
    if items == [] then Some([])
    else match (DecodeMessage(items[0]), DecodeMessages(items[1..]))
      case (Some(m), Some(ms)) => Some([m] + ms)
      case _ => None
  }

  /** The payload carries the conversation unchanged: decoding the `messages`
      entry gives back the same roles and contents in the same order. */
  lemma {:induction false} MessagesRoundTrip(ms: seq<Message>)
    ensures DecodeMessages(MessagesJson(ms).items) == Some(ms)
  {
    if ms != [] {
      var items := MessagesJson(ms).items;
      assert items[1..] == MessagesJson(ms[1..]).items;
      MessagesRoundTrip(ms[1..]);
      assert DecodeMessage(items[0]) == Some(ms[0]) by {
        match ms[0].role
        case System =>
        case User =>
        case Assistant =>
      }
      assert [ms[0]] + ms[1..] == ms;
    }
  }

  // ---------------------------------------------------------------- payload

  /** `if max_tokens:` — `None` and `0` both leave the field out. */
  predicate SendsMaxTokens(maxTokens: Option<int>) {
    maxTokens.Some? && maxTokens.value != 0
  }

  /** What a request body must hold: `model`, `messages` and `temperature`
      always, `max_tokens` when it is truthy, `stream` when requested, and
      every key of `extra`, whose values override anything set before. */
  ghost predicate IsPayload(p: map<string, Json>, model: string, messages: seq<Message>, temperature: real,
                            maxTokens: Option<int>, stream: bool, extra: map<string, Json>)
  {
    && p.Keys == {"model", "messages", "temperature"}
                 + (if SendsMaxTokens(maxTokens) then {"max_tokens"} else {})
                 + (if stream then {"stream"} else {})
                 + extra.Keys
    && (forall k :: k in extra ==> p[k] == extra[k])
    && ("model" !in extra ==> p["model"] == JStr(model))
    && ("messages" !in extra ==> p["messages"] == MessagesJson(messages))
    && ("temperature" !in extra ==> p["temperature"] == JFloat(temperature))
    && (SendsMaxTokens(maxTokens) && "max_tokens" !in extra ==> p["max_tokens"] == JInt(maxTokens.value))
    && (stream && "stream" !in extra ==> p["stream"] == JBool(true))
  }

  /** The payload dict both clients build: the three base fields, then the
      optional ones, then `payload.update(extra)` when `extra` is truthy. */
  method BuildPayload(model: string, messages: seq<Message>, temperature: real,
                      maxTokens: Option<int>, stream: bool, extra: map<string, Json>)
    returns (payload: map<string, Json>)
    ensures IsPayload(payload, model, messages, temperature, maxTokens, stream, extra)
  {
    payload := map["model" := JStr(model), "messages" := MessagesJson(messages), "temperature" := JFloat(temperature)];
    if SendsMaxTokens(maxTokens) {
      payload := payload["max_tokens" := JInt(maxTokens.value)];
    }
    if stream {
      payload := payload["stream" := JBool(true)];
    }
    if extra != map[] {
      payload := payload + extra;
    }
  }

  /** The description is complete: the inputs fix the payload. */
  lemma PayloadDetermined(p: map<string, Json>, q: map<string, Json>, model: string, messages: seq<Message>,
                          temperature: real, maxTokens: Option<int>, stream: bool, extra: map<string, Json>)
    requires IsPayload(p, model, messages, temperature, maxTokens, stream, extra)
    requires IsPayload(q, model, messages, temperature, maxTokens, stream, extra)
    ensures p == q
  {
    forall k | k in p
      ensures p[k] == q[k]
    {
      if k in extra {
      } else if k == "model" {
      } else if k == "messages" {
      } else if k == "temperature" {
      } else if k == "max_tokens" {
      } else {
        assert k == "stream";
      }
    }
  }

  /** With no `extra`, a request body has exactly the base fields and the
      requested optional ones, with the caller's values. */
  lemma PayloadWithoutExtra(p: map<string, Json>, model: string, messages: seq<Message>, temperature: real,
                            maxTokens: Option<int>, stream: bool)
    requires IsPayload(p, model, messages, temperature, maxTokens, stream, map[])
    ensures "max_tokens" in p <==> SendsMaxTokens(maxTokens)
    ensures "stream" in p <==> stream
    ensures p["model"] == JStr(model) && p["messages"] == MessagesJson(messages)
    ensures p["temperature"] == JFloat(temperature)
  {
  }

  // ---------------------------------------------------------------- response

  /** `j[key]` on a dict that has the key. */
  function Field(j: Json, key: string): (r: Option<Json>)
    ensures r.Some? <==> j.JObj? && key in j.fields
  {
    if j.JObj? && key in j.fields then Some(j.fields[key]) else None
  }

  /** `j[0]` on a non-empty list. */
  function First(j: Json): (r: Option<Json>)
    ensures r.Some? <==> j.JArr? && j.items != []
  {
    if j.JArr? && j.items != [] then Some(j.items[0]) else None
  }

  /** `data["choices"][0]["message"]["content"]` when every step succeeds;
      `None` where Python would raise KeyError, IndexError or TypeError. */
  function ContentAt(data: Json): Option<Json> {
    match Field(data, "choices")
    case None => None
    case Some(choices) =>
      match First(choices)
      case None => None
      case Some(choice) =>
        match Field(choice, "message")
        case None => None
        case Some(message) => Field(message, "content")
  }

  /** The `try: ... except Exception: return str(data)` around the lookup:
      never fails; the content where there is one, otherwise the body
      rendered by `repr`. */
  function ExtractContent(data: Json, repr: Json -> string): (r: Json)
    ensures ContentAt(data).Some? ==> r == ContentAt(data).value
    ensures ContentAt(data).None? ==> r == JStr(repr(data))
  {
    match ContentAt(data)
    case Some(c) => c
    case None => JStr(repr(data))
  }

  /** The smallest well-formed answer carrying `content`. */
  function CompletionBody(content: Json): Json {
    JObj(map["choices" := JArr([JObj(map["message" := JObj(map["role" := JStr("assistant"), "content" := content])])])])
  }

  /** A well-formed answer gives back its content unchanged (not stripped). */
  lemma ExtractFromCompletion(content: Json, repr: Json -> string)
    ensures ExtractContent(CompletionBody(content), repr) == content
  {
  }

  /** A body without `choices` (an error document, say) comes back as text. */
  lemma ExtractWithoutChoices(fields: map<string, Json>, repr: Json -> string)
    requires "choices" !in fields
    ensures ExtractContent(JObj(fields), repr) == JStr(repr(JObj(fields)))
  {
  }

  /** What `chat()` returns for a given network outcome: an error where
      `raise_for_status()` or `resp.json()` raises, otherwise the extracted
      content. */
  function ChatReply(o: Outcome, repr: Json -> string): (r: Result<Json, Failure>)
    ensures r.Ok? <==> ReceiveJson(o).Ok?
    ensures r.Ok? ==> r.value == ExtractContent(ReceiveJson(o).value, repr)
    ensures r.Err? ==> r.error == ReceiveJson(o).error
  {
    match ReceiveJson(o)
    case Ok(data) => Ok(ExtractContent(data, repr))
    case Err(e) => Err(e)
  }

  /** A 2xx answer in the standard shape yields its content; any 4xx or 5xx
      status is an error whatever the body says. */
  lemma ChatReplyCases(content: Json, status: int, repr: Json -> string)
    ensures 200 <= status < 300 ==> ChatReply(Reply(status, Some(CompletionBody(content))), repr) == Ok(content)
    ensures IsErrorStatus(status) ==> ChatReply(Reply(status, Some(CompletionBody(content))), repr) == Err(ErrorStatus(status))
  {
    ExtractFromCompletion(content, repr);
  }
}
