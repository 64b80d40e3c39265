/** The one shape of network call the chat clients make: an authenticated JSON
    POST whose answer is either a status with a body or a transport failure. */
module Http {
  import opened Wrappers
  import opened JsonValues

  /** `requests.post(url, headers=headers, json=payload, timeout=timeout)`. */
  datatype Request = Post(url: string, headers: map<string, string>, payload: map<string, Json>, timeout: int)

  /** What the network gives back: a status and a body that may or may not be
      valid JSON, or no answer at all (timeout, DNS, connection reset). */
  datatype Outcome = Reply(status: int, body: Option<Json>) | TransportFailure

  /** Why a POST raised instead of returning a document. */
  datatype Failure = Transport | ErrorStatus(status: int) | UndecodableBody

  /** `Response.raise_for_status()` in requests raises for 4xx and 5xx only. */
  predicate IsErrorStatus(status: int) {
    400 <= status < 600
  }

  /** `resp.raise_for_status(); return resp.json()`: a document comes back
      exactly when the call was answered with a status outside 400..599 and a
      body that decodes; an error status is reported with its code. */
  function ReceiveJson(o: Outcome): (r: Result<Json, Failure>)
    ensures r.Ok? <==> o.Reply? && !IsErrorStatus(o.status) && o.body.Some?
    ensures r.Ok? ==> r.value == o.body.value
    ensures o.Reply? && IsErrorStatus(o.status) ==> r == Err(ErrorStatus(o.status))
  {
    match o
    case TransportFailure => Err(Transport)
    case Reply(status, body) =>
      if IsErrorStatus(status) then Err(ErrorStatus(status))
      else match body
        case None => Err(UndecodableBody)
        case Some(data) => Ok(data)
  }

  // ------------------------------------------------ bearer tokens, RFC 6750

  /** A character of `b64token` in section 2.1 of RFC 6750:
      ALPHA / DIGIT / "-" / "." / "_" / "~" / "+" / "/". */
  predicate IsTokenChar(c: char) {
    ('A' <= c <= 'Z') || ('a' <= c <= 'z') || ('0' <= c <= '9')
    || c == '-' || c == '.' || c == '_' || c == '~' || c == '+' || c == '/'
  }

  /** `b64token = 1*( ALPHA / DIGIT / "-" / "." / "_" / "~" / "+" / "/" ) *"="`
      (section 2.1 of RFC 6750). */
  predicate IsB64Token(t: string) {
    && t != []
    && t[0] != '='
    && (forall i :: 0 <= i < |t| ==> IsTokenChar(t[i]) || t[i] == '=')
    && (forall i, j :: 0 <= i < j < |t| && t[i] == '=' ==> t[j] == '=')
  }

  /** The value `f"Bearer {token}"` the clients put in `Authorization`. */
  function BearerCredentials(token: string): string {
    "Bearer " + token
  }

  /** Reads `"Bearer" SP token` back out of an `Authorization` value. */
  function BearerToken(value: string): Option<string> {
    if |value| >= 7 && value[..7] == "Bearer " then Some(value[7..]) else None
  }

  /** `credentials = "Bearer" 1*SP b64token` with a single space, as the
      clients write it. */
  predicate IsBearerCredentials(value: string) {
    BearerToken(value).Some? && IsB64Token(BearerToken(value).value)
  }

  /** The header value carries the key unchanged, and it is a well-formed
      RFC 6750 credential exactly when the key is a b64token. */
  lemma BearerRoundTrip(token: string)
    ensures BearerToken(BearerCredentials(token)) == Some(token)
    ensures IsBearerCredentials(BearerCredentials(token)) <==> IsB64Token(token)
  {
    assert BearerCredentials(token)[7..] == token;
  }

  /** The header dict every chat client sends: exactly `Authorization` and
      `Content-Type`, the first carrying the key as a bearer credential and
      the second naming JSON. */
  function JsonBearerHeaders(token: string): (h: map<string, string>)
    ensures h.Keys == {"Authorization", "Content-Type"}
    ensures BearerToken(h["Authorization"]) == Some(token)
    ensures h["Content-Type"] == "application/json"
  {
    BearerRoundTrip(token);
    map["Authorization" := BearerCredentials(token), "Content-Type" := "application/json"]
  }
}
