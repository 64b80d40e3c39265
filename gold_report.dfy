/** The gold report script's `main`: a once-a-day flag, the numbered
    title, the data message, the summary obtained through the fallback and
    finally the flag for the day. */
module GoldReport {
  import opened Wrappers
  import opened Text
  import opened Dates
  import opened JsonValues
  import opened Settings
  import opened Http
  import DailyReport
  import opened GoldSent
  import opened GoldWorldBank
  import opened GoldSummaryPrompt
  import opened GoldFallback

  // ---------------------------------------------------------------- main

  /** `"```\n" + json.dumps(dados, ...) + "\n```"`; `dump` is the
      `json.dumps` text. */
  function JsonBlock(dump: string): string {
    "```\n" + dump + "\n```"
  }

  /** The title `main` numbers: "Diário", gold's pair label. */
  function GoldTitle(dateText: string, n: int): string {
    DailyReport.MarketTitle(DailyReport.PairLabel(DailyReport.Gold), dateText, DailyReport.Daily, n)
  }

  /** The prompt `main` builds: today's `%d/%m/%Y` date, no COT data. */
  function GoldPrompt(today: Date, market: Quotes, dxy: Option<DxyLast>, reserves: Option<Reserves>,
                      show: Json -> string): string
    requires Valid(today)
  {
    Join("\n", SummaryParts(SlashDate(today), market, dxy, reserves, JNull, show))
  }

  /** The summary `main` sends: the fallback's answer to the prompt built
      from the day's data. */
  function GoldSummary(today: Date, market: Quotes, dxy: Option<DxyLast>, totalReserves: Outcome,
                       goldReserves: Outcome, keys: ApiKeys, show: Json -> string, send: Request -> Outcome): string
    requires Valid(today)
  {
    FirstAnswer(Turns(keys, GoldPrompt(today, market, dxy, WorldReserves(totalReserves, goldReserves), show), send)).text
  }

  /** The first message: the numbered title, a blank line, the data block. */
  function DataMessage(dateText: string, n: int, dump: string): string {
    GoldTitle(dateText, n) + "\n\n" + JsonBlock(dump)
  }

  /** How `main` ends: stopped by the flag, raised by a Telegram POST that
      got no answer, or done. */
  datatype RunEnd = AlreadySent | Raised | Completed

  /** A run past the flag raises when either of its two POSTs does. */
  predicate RunRaises(telegram: TelegramSecrets, n: int, dateText: string, dump: string, summary: string,
                      send: Request -> Outcome)
  {
    PostRaises(telegram, DataMessage(dateText, n, dump), true, send) || PostRaises(telegram, summary, false, send)
  }

  /** What a run that gets past the flag does, in order: save the counter,
      post the data message, post the summary, create the flag. A POST that
      raises ends the run right after it. */
  function RunEffects(telegram: TelegramSecrets, n: int, dateText: string, dump: string, summary: string, flag: string,
                      send: Request -> Outcome): seq<Effect>
  {
    var data := DataMessage(dateText, n, dump);
    [CounterSaved(n)] + TelegramEffects(telegram, data, true)
      + (if PostRaises(telegram, data, true, send) then []
         else TelegramEffects(telegram, summary, false)
              + (if PostRaises(telegram, summary, false, send) then [] else [FlagTouched(flag)]))
  }

  /** The counter is saved before anything is posted; the flag is created
      last, and only by a run in which no POST raised. Such a run posts two
      messages exactly when Telegram is set up; a run that raised had it set
      up and posted at most two. */
  lemma RunEffectsOrder(telegram: TelegramSecrets, n: int, dateText: string, dump: string, summary: string, flag: string,
                        send: Request -> Outcome)
    ensures var e := RunEffects(telegram, n, dateText, dump, summary, flag, send);
            && e[0] == CounterSaved(n)
            && (forall i :: 0 < i < |e| - 1 ==> e[i].TelegramPosted?)
            && (FlagTouched(flag) in e <==> !RunRaises(telegram, n, dateText, dump, summary, send))
            && (!RunRaises(telegram, n, dateText, dump, summary, send) ==>
                  e[|e| - 1] == FlagTouched(flag) && (|e| == 4 <==> TelegramConfigured(telegram)))
            && (RunRaises(telegram, n, dateText, dump, summary, send) ==>
                  TelegramConfigured(telegram) && 2 <= |e| <= 3 && e[|e| - 1].TelegramPosted?)
  {
    var data := DataMessage(dateText, n, dump);
    TelegramEffectsShape(telegram, data, true);
    TelegramEffectsShape(telegram, summary, false);
  }

  /** At most one POST per call, and one exactly when Telegram is set up. */
  lemma TelegramEffectsShape(telegram: TelegramSecrets, text: string, markdown: bool)
    ensures var e := TelegramEffects(telegram, text, markdown);
            && |e| == (if TelegramConfigured(telegram) then 1 else 0)
            && forall i :: 0 <= i < |e| ==> e[i] == TelegramPosted(text, markdown)
  {
  }

  /** `main()`: a flag for today ends the run before anything is touched.
      Otherwise the counter is saved, the data message and then the summary
      are posted, and only after both the flag is created; a POST that gets
      no answer raises out of `main` with the counter already saved and no
      flag, so the next run that day sends again under the next number.
      `telegram` and `keys` are the settings the script read when it was
      loaded, `LoadTelegram(env)` and `LoadKeys(env)`; `send` answers every
      POST, to the model providers and to Telegram. */
  method RunReport(root: SentRoot, today: Date, dateText: string, telegram: TelegramSecrets, keys: ApiKeys, market: Quotes,
                   dxy: Option<DxyLast>, totalReserves: Outcome, goldReserves: Outcome, dump: string,
                   show: Json -> string, send: Request -> Outcome)
    returns (end: RunEnd)
    requires Valid(today)
    modifies root
    ensures end == AlreadySent <==> FlagName(today) in old(root.flags)
    ensures end == AlreadySent ==> root.counterFile == old(root.counterFile) && root.flags == old(root.flags)
                                   && root.effects == old(root.effects)
    ensures end != AlreadySent ==>
              var n := LoadCounter(old(root.counterFile)) + 1;
              var summary := GoldSummary(today, market, dxy, totalReserves, goldReserves, keys, show, send);
              && (end == Raised <==> RunRaises(telegram, n, dateText, dump, summary, send))
              && root.counterFile == Some(IntToString(n))
              && root.flags == old(root.flags) + (if end == Completed then {FlagName(today)} else {})
              && root.effects == old(root.effects) + RunEffects(telegram, n, dateText, dump, summary, FlagName(today), send)
  {
    var flag := FlagName(today);
    if flag in root.flags {
      return AlreadySent;
    }
    ghost var start := root.effects;
    ghost var n := LoadCounter(root.counterFile) + 1;
    ghost var expected := GoldSummary(today, market, dxy, totalReserves, goldReserves, keys, show, send);
    var title := root.GetTitleWithCounter(DailyReport.Daily, DailyReport.PairLabel(DailyReport.Gold), dateText);
    assert title + "\n\n" + JsonBlock(dump) == DataMessage(dateText, n, dump);
    ghost var counter := root.counterFile;
    assert counter == Some(IntToString(n));
    var reserves := FetchWorldReserves(totalReserves, goldReserves);
    var raised := root.SendTelegram(telegram, title + "\n\n" + JsonBlock(dump), true, send);
    ghost var data := root.effects;
    if raised {
      assert root.effects == start + RunEffects(telegram, n, dateText, dump, expected, flag, send);
      return Raised;
    }
    var prompt := BuildSummaryPrompt(SlashDate(today), market, dxy, reserves, JNull, show);
    assert prompt == GoldPrompt(today, market, dxy, WorldReserves(totalReserves, goldReserves), show);
    var summary, _ := GenerateSummaryWithFallback(prompt, keys, send);
    assert summary == expected;
    raised := root.SendTelegram(telegram, summary, false, send);
    if raised {
      AppendThree(start, [CounterSaved(n)], data[|start| + 1..], root.effects[|data|..]);
      assert root.effects == start + RunEffects(telegram, n, dateText, dump, summary, flag, send);
      return Raised;
    }
    ghost var answered := root.effects;
    root.TouchFlag(flag);
    AppendFour(start, [CounterSaved(n)], data[|start| + 1..], answered[|data|..], [FlagTouched(flag)]);
    assert root.effects == start + RunEffects(telegram, n, dateText, dump, summary, flag, send);
    assert root.counterFile == counter;
    end := Completed;
  }

  /** Appending three pieces one after another appends their concatenation. */
  lemma AppendThree<T>(s: seq<T>, a: seq<T>, b: seq<T>, c: seq<T>)
    ensures s + a + b + c == s + (a + b + c)
  {
  }

  /** Appending four pieces one after another appends their concatenation. */
  lemma AppendFour<T>(s: seq<T>, a: seq<T>, b: seq<T>, c: seq<T>, d: seq<T>)
    ensures s + a + b + c + d == s + (a + b + c + d)
  {
  }
}
