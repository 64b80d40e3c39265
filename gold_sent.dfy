/** The gold report's own files: a plain-text counter numbering the
    reports, one flag file per day, and the record of what a run has done
    outside its memory (counter writes, Telegram messages, flags). */
module GoldSent {
  import opened Wrappers
  import opened Text
  import opened Dates
  import opened Settings
  import opened JsonValues
  import opened Http
  import DailyReport

  // ---------------------------------------------------------------- counter

  /** `f.read() or "0"`: an empty file reads as "0". */
  function OrZero(text: string): string {
    if text == "" then "0" else text
  }

  /** `_load_counter(path)`: 0 for a missing file; otherwise the stripped
      text as `int()` reads it, and 0 where `int()` raises. */
  function LoadCounter(file: Option<string>): int {
    match file
    case None => 0
    case Some(text) =>
      match ParseInt(Strip(OrZero(text)))
      case Some(n) => n
      case None => 0
  }

  /** A missing file and an empty one both count as 0. */
  lemma LoadCounterEmpty()
    ensures LoadCounter(None) == 0 && LoadCounter(Some("")) == 0
  {
    CounterRoundTrip(0);
    assert IntToString(0) == "0" == OrZero("");
  }

  /** A file holding only whitespace is not empty, so it is stripped to ""
      and `int("")` raises: it counts as 0 too. */
  lemma LoadCounterBlank(text: string)
    requires text != "" && AllSpace(text)
    ensures LoadCounter(Some(text)) == 0
  {
    assert Strip(text) == "";
  }

  /** What `str()` writes has no surrounding whitespace. */
  lemma IntToStringStripped(n: int)
    ensures IntToString(n) != "" && IsStripped(IntToString(n))
  {
    var s := IntToString(n);
    if n < 0 {
      assert s[0] == '-';
      assert s[|s| - 1] == NatToString(-n)[|NatToString(-n)| - 1];
    } else {
      assert IsDigit(s[0]) && IsDigit(s[|s| - 1]);
    }
  }

  /** `_save_counter` followed by `_load_counter` gives the saved number
      back, negative ones included. */
  lemma CounterRoundTrip(n: int)
    ensures LoadCounter(Some(IntToString(n))) == n
  {
    IntToStringStripped(n);
    IntRoundTrip(n);
  }

  /** One report moves the counter on by exactly one, from whatever the
      file held before (0 when it was missing or unreadable). */
  lemma SavedCount(file: Option<string>)
    ensures LoadCounter(Some(IntToString(LoadCounter(file) + 1))) == LoadCounter(file) + 1
  {
    CounterRoundTrip(LoadCounter(file) + 1);
  }

  /** The title reports the number the counter moved on to, whatever the
      file held, a negative number included. */
  lemma GoldTitleNumber(file: Option<string>, pair: string, date: string, frequency: string)
    ensures DailyReport.TitleNumber(DailyReport.MarketTitle(pair, date, frequency, LoadCounter(file) + 1))
            == LoadCounter(file) + 1
  {
    DailyReport.TitleNumberRoundTrip(pair, date, frequency, LoadCounter(file) + 1);
  }

  // ---------------------------------------------------------------- state

  /** What a run does outside its own memory, in the order it does it. */
  datatype Effect =
    | CounterSaved(value: int)
    | TelegramPosted(text: string, markdown: bool)
    | FlagTouched(name: string)

  /** `done-gold-daily-{%Y-%m-%d}`, the flag file of one day. */
  function FlagName(today: Date): string
    requires Valid(today)
  {
    "done-gold-daily-" + IsoTag(today)
  }

  /** `TELEGRAM_BOT_TOKEN` and `TELEGRAM_CHAT_ID_METALS`, read from the
      environment and stripped once, when the script is loaded. */
  datatype TelegramSecrets = TelegramSecrets(botToken: string, chatId: string)

  function LoadTelegram(env: Env): TelegramSecrets {
    TelegramSecrets(Strip(EnvGet(env, "TELEGRAM_BOT_TOKEN", "")), Strip(EnvGet(env, "TELEGRAM_CHAT_ID_METALS", "")))
  }

  /** `send_telegram` does nothing when the bot token or the chat id is blank. */
  predicate TelegramConfigured(telegram: TelegramSecrets) {
    telegram.botToken != "" && telegram.chatId != ""
  }

  /** Messages go out exactly when both variables hold something besides
      whitespace. */
  lemma {:induction false} LoadTelegramConfigured(env: Env)
    ensures TelegramConfigured(LoadTelegram(env))
            <==> !AllSpace(EnvGet(env, "TELEGRAM_BOT_TOKEN", "")) && !AllSpace(EnvGet(env, "TELEGRAM_CHAT_ID_METALS", ""))
  {
    var t := LoadTelegram(env);
    assert t.botToken == "" <==> AllSpace(EnvGet(env, "TELEGRAM_BOT_TOKEN", ""));
    assert t.chatId == "" <==> AllSpace(EnvGet(env, "TELEGRAM_CHAT_ID_METALS", ""));
  }

  /** The `sendMessage` POST of `send_telegram`: the bot's URL, the chat,
      the text, link previews off and, for the data message, Markdown. No
      headers are given; `json=` adds the content type itself. */
  function TelegramRequest(telegram: TelegramSecrets, text: string, markdown: bool): Request {
    var payload := map["chat_id" := JStr(telegram.chatId), "text" := JStr(text), "disable_web_page_preview" := JBool(true)];
    Post("https://api.telegram.org/bot" + telegram.botToken + "/sendMessage", map[],
         if markdown then payload["parse_mode" := JStr("Markdown")] else payload, 60)
  }

  /** `requests.post` sits outside the `try` of `send_telegram`: an answer
      with an error status is only reported, but a POST that gets no answer
      raises out of the caller. Nothing is posted, so nothing raises, when
      Telegram is not set up. */
  predicate PostRaises(telegram: TelegramSecrets, text: string, markdown: bool, send: Request -> Outcome) {
    TelegramConfigured(telegram) && send(TelegramRequest(telegram, text, markdown)).TransportFailure?
  }

  /** The POSTs one `send_telegram` call makes. */
  function TelegramEffects(telegram: TelegramSecrets, text: string, markdown: bool): seq<Effect> {
    if TelegramConfigured(telegram) then [TelegramPosted(text, markdown)] else []
  }

  /** The `.sent` directory (the counter file and the daily flags) and the
      record of what the script has done so far. */
  class SentRoot {
    var counterFile: Option<string>
    var flags: set<string>
    var effects: seq<Effect>

    constructor (counterFile: Option<string>, flags: set<string>)
      ensures this.counterFile == counterFile && this.flags == flags && effects == []
    {
      this.counterFile := counterFile;
      this.flags := flags;
      effects := [];
    }

    /** `get_title_with_counter(frequency, pair_label, ...)`: read the
        counter, save it plus one, and number the title with the new value.
        `dateText` is `strftime("%d de %B de %Y")`, whose month name depends
        on the locale. */
    method GetTitleWithCounter(frequency: string, pairLabel: string, dateText: string) returns (title: string)
      modifies this
      ensures title == DailyReport.MarketTitle(pairLabel, dateText, frequency, LoadCounter(old(counterFile)) + 1)
      ensures counterFile == Some(IntToString(LoadCounter(old(counterFile)) + 1))
      ensures effects == old(effects) + [CounterSaved(LoadCounter(old(counterFile)) + 1)]
      ensures flags == old(flags)
    {
      var current := LoadCounter(counterFile);
      var next := current + 1;
      SaveCounter(next);
      title := DailyReport.MarketTitle(pairLabel, dateText, frequency, next);
    }

    /** `_save_counter(path, value)`: the file holds `str(value)`. */
    method SaveCounter(value: int)
      modifies this
      ensures counterFile == Some(IntToString(value)) && effects == old(effects) + [CounterSaved(value)]
      ensures flags == old(flags)
    {
      counterFile := Some(IntToString(value));
      effects := effects + [CounterSaved(value)];
    }

    /** `send_telegram(text, parse_mode)`: when Telegram is set up, one
        POST, which raises when it gets no answer; `raised` says so. */
    method SendTelegram(telegram: TelegramSecrets, text: string, markdown: bool, send: Request -> Outcome)
      returns (raised: bool)
      modifies this
      ensures raised == PostRaises(telegram, text, markdown, send)
      ensures effects == old(effects) + TelegramEffects(telegram, text, markdown)
      ensures counterFile == old(counterFile) && flags == old(flags)
    {
      raised := false;
      if telegram.botToken != "" && telegram.chatId != "" {
        var outcome := send(TelegramRequest(telegram, text, markdown));
        effects := effects + [TelegramPosted(text, markdown)];
        if outcome.TransportFailure? {
          raised := true;
        }
      }
    }

    /** `pathlib.Path(SENT_FLAG_FILE).touch()`. */
    method TouchFlag(flag: string)
      modifies this
      ensures flags == old(flags) + {flag} && effects == old(effects) + [FlagTouched(flag)]
      ensures counterFile == old(counterFile)
    {
      flags := flags + {flag};
      effects := effects + [FlagTouched(flag)];
    }
  }
}
