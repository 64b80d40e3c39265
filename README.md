# metals-reports, modelled in Dafny

metals-reports is a set of Python scripts. They post a daily market report on
gold, copper and silver to Telegram, written with the help of a
chat-completion model. Most of the code fetches data from the network and
writes files. This project models the deterministic logic under that glue and
proves what it promises:

- **Chat-completion clients** (`scripts/providers/`):
  - how each client resolves its key and model from an argument, the
    environment or a default, and when its constructor refuses;
  - how `LLMClient` chooses its provider;
  - the system + user message list;
  - the request body (`max_tokens` only when truthy, `stream` only when
    requested, `extra` merged last);
  - the `Authorization: Bearer` header of section 2.1 of RFC 6750;
  - reading the answer, which falls back to the body's `str()` instead of
    raising.
- **The gold report** (`scripts/gold_report.py`):
  - the plain-integer counter file and the numbered title;
  - the summary prompt and its optional lines;
  - the World Bank `_last_value` search;
  - the three `generate_via_*` requests;
  - the ordered fallback groq → openai → deepseek, ending in a fixed
    sentence;
  - the order of effects in `main`: the flag for the day ends the run
    before anything is touched; the flag is created only after both
    messages; a Telegram POST that gets no answer ends the run with the
    counter already saved and no flag.
- **The daily scripts** (`scripts/gold_daily.py`, `scripts/copper_daily.py`,
  `scripts/silver_daily.py`):
  - the `.env` loader (split at the first `=`, earlier definitions win, no
    variable is overwritten);
  - the Portuguese date label;
  - the per-key counters file;
  - the once-a-day seal with the `--force` bypass;
  - the factual context blocks (four lines for gold, eight for copper and
    silver, the CFTC line second).

The modules follow the program's own structure:

| module | file | models |
|---|---|---|
| `Wrappers` | `wrappers.dfy` | `Option` and `Result` |
| `Text` | `text.dfy` | the parts of Python's `str` the scripts use (`strip`, `lower`, `split`, `join`), plus `int()` and `str()` on integers |
| `JsonValues` | `json_values.dfy` | JSON documents as Python holds them, and their truthiness |
| `Http` | `http.dfy` | a POST request, its outcome, `raise_for_status`, bearer credentials |
| `ChatCompletion` | `chat.dfy` | messages, the request body and the answer, shared by every client |
| `Settings` | `settings.dfy` | the environment and the resolution of a key and a model |
| `PiApi` | `piapi_client.dfy` | `PiAPIClient` |
| `OpenAICompat` | `openai_compat.dfy` | `OpenAICompatClient` |
| `CompatProviders` | `compat_providers.dfy` | `DeepSeekClient`, `GroqClient`, `OpenAIClient` |
| `Llm` | `llm_client.dfy` | `LLMClient` |
| `Dates` | `dates.dfy` | the three date formats the scripts print |
| `EnvFile` | `env_file.dfy` | `load_env_if_present` |
| `DailyReport` | `daily_report.dfy` | the title, `title_counter`, `sent_guard` and the opening of the three daily `main`s |
| `ContextSentences`, `ContextBlocks` | `context_sentences.dfy`, `context_blocks.dfy` | the `fetch_*` sentences and `build_context_block` |
| `GoldSent` | `gold_sent.dfy` | the gold report's `.sent` directory and its Telegram sender |
| `GoldWorldBank` | `gold_world_bank.dfy` | `fetch_world_reserves` and `_last_value` |
| `PromptSentences`, `GoldSummaryPrompt` | `prompt_sentences.dfy`, `gold_prompt.dfy` | `build_summary_prompt` |
| `GoldFallback` | `gold_fallback.dfy` | `generate_via_*` and `generate_summary_with_fallback` |
| `GoldReport` | `gold_report.dfy` | the gold report's `main` |

How the outside world appears in the model:

- **Environment, files and the clock.** The environment is a
  `map<string, string>`. The contents of a file are a value:
  - `Option<string>` for the gold counter;
  - `Option<map<string, int>>` for the counters file;
  - `Option<Json>` for the seal;
  - lines for a `.env` file.

  State the scripts change in place is a class whose methods update it:
  `CounterFile`, `SealFile`, and `SentRoot` (the gold report's `.sent`
  directory and the messages it sent). "Today" is a `Date` parameter.
- **Network.** Every HTTP call is a `send: Request -> Outcome` function
  parameter. An outcome is a reply with a status and an optional JSON body,
  or a transport failure. The clients return the request they built beside
  the reply, so their contracts can speak of headers and payload.
- **Library formatting.** The scripts print numbers with f-strings, dump
  JSON with `json.dumps` and print the month with the locale's `%B`. These
  are parameters: `show`, `repr`, `dump` and `dateText`.

The gold daily script promises more than `LLMClient` does. Its docstring
says "PIAPI como padrão + fallback Groq/OpenAI/DeepSeek"
(`scripts/gold_daily.py:5`), its sample `.env` lists
`LLM_FALLBACK_ORDER=piapi,groq,openai,deepseek` (`scripts/gold_daily.py:19`),
and `gerar_analise_ouro` says it uses `LLMClient` "com fallback automático"
(`scripts/gold_daily.py:169`). `LLMClient` (`scripts/providers/llm_client.py:13-39`)
has no fallback and never reads `LLM_FALLBACK_ORDER`. The model follows the
code:

- `LLMClient` accepts only `piapi` and has no fallback order.
- The only failover is `generate_summary_with_fallback` in the gold report.
- There, an answer without content is an empty success that stops the
  fallback, not a failure that moves on to the next provider.

## Model

| member | source | states |
|---|---|---|
| Text.Strip | scripts/providers/piapi_client.py:19-20 | `str.strip()` with Python's whitespace set: the result has no whitespace at either end, is no longer than the input, is empty exactly when the input is all whitespace, and is the input itself when that is already stripped |
| Text.Lower | scripts/providers/llm_client.py:14 | `str.lower()` on the provider name: same length, each upper-case letter replaced by its lower-case one, every other character kept |
| Text.SplitJoin | scripts/gold_report.py:261 | joining lines that hold no separator with `"\n"` and splitting again gives the lines back |
| Text.IntRoundTrip | scripts/gold_report.py:61-68 | `int(str(n)) == n` for every integer, negative ones included |
| Http.ReceiveJson | scripts/providers/piapi_client.py:53-55 | `raise_for_status()` then `resp.json()`: a JSON value exactly for a reply whose status is outside 400..599 and whose body parses; an error status is the error |
| Http.BearerRoundTrip | scripts/providers/piapi_client.py:50 | the credentials `Bearer <token>` give the token back, and are RFC 6750 bearer credentials exactly when the token is a b64token |
| Http.JsonBearerHeaders | scripts/providers/piapi_client.py:49-52 | exactly two headers: `Authorization` carrying the key as a bearer token, and `Content-Type: application/json` |
| ChatCompletion.MessagesRoundTrip | scripts/providers/piapi_client.py:39 | the message list sent as `messages` decodes back to the same messages, roles and contents in order |
| ChatCompletion.BuildPayload | scripts/providers/piapi_client.py:37-47 | the body holds model, messages and temperature, `max_tokens` exactly when truthy (`None` and 0 leave it out), `stream` exactly when true, and every key of `extra` with `extra`'s value |
| ChatCompletion.PayloadDetermined | scripts/providers/piapi_client.py:37-47 | the description of the body is complete: two bodies that both meet it are equal |
| ChatCompletion.PayloadWithoutExtra | scripts/providers/base_openai_compat.py:31-39 | without `extra`, `max_tokens` and `stream` are present exactly when asked for, and model, messages and temperature carry the caller's values |
| ChatCompletion.ExtractContent | scripts/providers/piapi_client.py:59-63 | `choices[0].message.content` when every step of the lookup exists, otherwise the body's `str()`; never an error |
| ChatCompletion.ExtractFromCompletion | scripts/providers/piapi_client.py:57-60 | a standard completion yields its content unchanged, not stripped |
| ChatCompletion.ExtractWithoutChoices | scripts/providers/base_openai_compat.py:48-51 | a body without `choices` yields its `str()` |
| ChatCompletion.ChatReply | scripts/providers/piapi_client.py:53-63 | the reply succeeds exactly when the HTTP answer is usable, with the extracted content; an HTTP error propagates unchanged |
| ChatCompletion.ChatReplyCases | scripts/providers/piapi_client.py:53-63 | a 2xx completion gives its content; a 4xx/5xx reply gives the status error even with a completion in the body |
| Settings.Resolve | scripts/providers/piapi_client.py:19-20 | `(arg or os.environ.get(NAME, default)).strip()`: the argument when non-empty, else the variable, else the default, always stripped |
| Settings.ResolvePrecedence | scripts/providers/piapi_client.py:19 | a non-empty argument makes the environment irrelevant; an empty argument counts as absent |
| Settings.ResolveCredentials | scripts/providers/piapi_client.py:19-23 | the constructor succeeds exactly when the resolved key is not blank; the key stored is the resolved key (argument, else variable, stripped), non-empty; the model is the resolved one (argument, else variable, else default, stripped); the error names the key variable |
| Settings.ExplicitKeyWins | scripts/providers/deepseek_client.py:13 | a non-blank explicit key is accepted and stored stripped, whatever the environment holds |
| Settings.DefaultModelUsed | scripts/providers/openai_client.py:14 | with no model argument and no model variable, the default model is used |
| PiApi.PiApiCredentials | scripts/providers/piapi_client.py:19-23 | succeeds exactly when the key argument, else `PIAPI_API_KEY`, is not blank; the key is that value stripped and the model is the argument, else `PIAPI_MODEL`, else "gpt-4o-mini", stripped; otherwise the missing-key error for `PIAPI_API_KEY` |
| PiApi.PiApiDefaults | scripts/providers/piapi_client.py:19-20 | from the environment alone, the key is `PIAPI_API_KEY` and the model defaults to `gpt-4o-mini` |
| PiApi.PiApiClient.New | scripts/providers/piapi_client.py:15-23 | construction succeeds exactly when the credentials resolve, and the new client holds them and the timeout as given |
| PiApi.PiApiClient.Chat | scripts/providers/piapi_client.py:25-63 | the POST goes to the PiAPI URL with the client's timeout, the bearer headers and a body meeting the payload description; the reply is `ChatReply` of the answer |
| OpenAICompat.CompatConfig | scripts/providers/base_openai_compat.py:14-24 | the base constructor refuses exactly the empty key, checked before stripping; otherwise it stores `Strip` of the key, the model and the endpoint, each stripped and the key no longer than given |
| OpenAICompat.BlankKeyAccepted | scripts/providers/base_openai_compat.py:19-21 | a whitespace-only key passes the base guard, is stored as "", and the `Authorization` header it yields is not valid bearer credentials |
| OpenAICompat.StrippedFieldsKept | scripts/providers/base_openai_compat.py:21-23 | already clean fields are stored as given |
| OpenAICompat.OpenAICompatClient.New | scripts/providers/base_openai_compat.py:14-24 | construction succeeds exactly when `CompatConfig` does; the fields and the timeout are stored as it says |
| OpenAICompat.OpenAICompatClient.Chat | scripts/providers/base_openai_compat.py:26-51 | the POST goes to the client's endpoint with its timeout, the bearer headers and a body without `stream`; the reply is `ChatReply` of the answer |
| CompatProviders.FixedStringsStripped | scripts/providers/groq_client.py:6 | each provider's endpoint and default model have no surrounding whitespace |
| CompatProviders.ProviderCredentials | scripts/providers/groq_client.py:13-16 | succeeds exactly when the key argument, else the provider's key variable, is not blank; the key is that value stripped and the model is the argument, else the provider's model variable, else its default, stripped; a blank key is the provider's own missing-key error |
| CompatProviders.SubclassSatisfiesBase | scripts/providers/deepseek_client.py:15-17 | what a subclass hands to the base always passes the base guard and is stored unchanged, with the provider's fixed endpoint |
| CompatProviders.BlankKeyRejected | scripts/providers/openai_client.py:13-16 | a whitespace-only key is refused by the subclass before the base runs |
| CompatProviders.ProviderDefaultModel | scripts/providers/groq_client.py:14 | with no model argument and no model variable, each provider uses its own default model |
| CompatProviders.NewClient | scripts/providers/deepseek_client.py:9-17 | a base client at the provider's endpoint with the resolved key and model and the timeout as given, or the provider's missing-key error |
| Llm.NormalizeProvider | scripts/providers/llm_client.py:14 | the provider name is the argument, else `LLM_PROVIDER`, else "", stripped and lower-cased: it is stripped, has no upper-case letter, and is no longer than what it came from |
| Llm.StripPiApi | scripts/providers/llm_client.py:14 | `" PiAPI ".strip()` is `"PiAPI"` |
| Llm.LowerPiApi | scripts/providers/llm_client.py:14 | `"PiAPI".lower()` is `"piapi"` |
| Llm.NormalizeExample | scripts/providers/llm_client.py:14 | `" PiAPI "` normalises to `"piapi"` |
| Llm.SelectedProvider | scripts/providers/llm_client.py:14-20 | the name is the normalised one, or "piapi" when that is empty and `PIAPI_API_KEY` is non-empty; it is empty exactly when both are |
| Llm.NamedProviderKept | scripts/providers/llm_client.py:14-20 | a name already clean and non-empty is kept as given, whatever the environment holds |
| Llm.LLMClient.ChooseProvider | scripts/providers/llm_client.py:14-20 | the staged reassignment of `self.provider` ends at `SelectedProvider` |
| Llm.LLMClient.New | scripts/providers/llm_client.py:13-28 | any provider but "piapi" (groq, openai and deepseek included) is refused; for "piapi" a PiAPI client is built from the environment alone, and its key error propagates |
| Llm.LLMClient.Generate | scripts/providers/llm_client.py:30-39 | one user message when the system prompt is empty, else system then user; a single PiAPI call with the caller's temperature and `max_tokens`, the client's key and timeout, whose reply is returned unchanged |
| Dates.Pad2 | scripts/gold_daily.py:98 | `%m` and `%d`: two digits whose value is the number |
| Dates.IsoTagRoundTrip | scripts/gold_daily.py:98 | the `%Y-%m-%d` tag of a valid date reads back as that date |
| Dates.IsoTagInjective | scripts/gold_daily.py:98-103 | two days share a seal tag exactly when they are the same day |
| Dates.SlashDateRoundTrip | scripts/gold_report.py:369 | the `%d/%m/%Y` label of a valid date reads back as that date |
| Dates.MonthSearch | scripts/gold_daily.py:72-73 | finds the month whose " de <name> de " part is given, or proves that no month has it |
| Dates.DateLabelRoundTrip | scripts/gold_daily.py:71-75 | "{day} de {month name} de {year}" with the day unpadded reads back as its date |
| Dates.DateLabelInjective | scripts/copper_daily.py:28-32 | two labels are equal exactly when their dates are |
| EnvFile.EnvEntry | scripts/gold_daily.py:59-63 | a line is skipped when blank, a comment or without '='; otherwise its key and value are non-empty and stripped, and the key holds no '=' |
| EnvFile.EnvEntrySplit | scripts/gold_daily.py:62 | the split is at the first '=' only, so the value may hold '=' |
| EnvFile.EnvEntryRoundTrip | scripts/gold_daily.py:59-64 | a line written `KEY=VALUE` from a clean key and value reads back as that pair |
| EnvFile.FirstValueAppend | scripts/gold_daily.py:56-64 | across files tried in order, the earlier definition of a key wins |
| EnvFile.LoadedFromTwice | scripts/gold_daily.py:56-58 | loading one file and then the next is loading their entries once, in order |
| EnvFile.LoadEntries | scripts/gold_daily.py:58-64 | each key becomes its first definition unless the environment already had it; nothing present is overwritten and nothing else is added |
| EnvFile.LoadLines | scripts/gold_daily.py:58-64 | loading one file's lines leaves the environment as `LoadedFrom` its entries describes |
| EnvFile.LoadedClean | scripts/gold_daily.py:59-64 | every variable added from a file is non-empty and stripped |
| EnvFile.LoadEnvIfPresent | scripts/gold_daily.py:52-64 | `../.env` then `./.env`, each only when present: earlier definitions win, existing variables are kept, and every added value is non-empty and stripped |
| DailyReport.TitleNumberRoundTrip | scripts/gold_daily.py:268 | the number at the end of a title "… — Nº {n}", read with its sign, is the counter value it was built from, for every integer |
| DailyReport.BumpedOnlyKey | scripts/gold_daily.py:87 | one run adds one to its own entry (a missing entry becomes 1) and leaves every other entry as it was |
| DailyReport.CountAfterRuns | scripts/copper_daily.py:34-42 | scripts sharing one counters file do not disturb each other: after any run sequence, a key has grown by its number of runs |
| DailyReport.CounterFile.TitleCounter | scripts/gold_daily.py:78-89 | starts from the file's dict, or `{}` when it cannot be read, writes back the dict with only `key` incremented, and returns the new value |
| DailyReport.GuardSameDay | scripts/silver_daily.py:44-55 | an unsealed day lets the report through, and a second call the same day stops it and leaves the seal alone |
| DailyReport.GuardAcrossDays | scripts/gold_daily.py:98-107 | a seal written on one day stops the report on that day and on no other |
| DailyReport.SealFile.SentGuard | scripts/gold_daily.py:92-107 | true, with nothing written, exactly when the seal's `last_sent` is today's tag; otherwise the seal becomes `{"last_sent": today}` and the answer is false; a missing, unreadable or non-dict seal never matches |
| DailyReport.SealAndNumber | scripts/copper_daily.py:163-168 | with `--force` the seal is neither read nor written; without it a sealed day returns before the counter is touched; otherwise only the metal's counter moves on and the title carries the new number |
| DailyReport.RunDaily | scripts/gold_daily.py:248-268 | only the gold script loads `.env` files before the seal, then as `SealAndNumber` |
| ContextBlocks.FredKey | scripts/gold_daily.py:156 | `FRED_API_KEY` stripped, or `None` exactly when the variable is missing or blank |
| ContextBlocks.CftcSourcedIff | scripts/gold_daily.py:127-134 | the "fonte: FRED" sentence is used exactly when `requests` is available and the FRED key is not blank; otherwise the estimate |
| ContextBlocks.ContextLines | scripts/copper_daily.py:87-100 | four lines for gold and eight for copper and silver, with the CFTC line second |
| ContextBlocks.ContextBlockLines | scripts/gold_daily.py:154-163 | the block splits back at "\n" into exactly its fixed lines in their order, the CFTC line second |
| GoldSent.LoadCounter | scripts/gold_report.py:56-63 | a missing file reads as 0; an empty file reads as "0"; otherwise the stripped text is parsed with `int()`, and 0 when it does not parse |
| GoldSent.LoadCounterEmpty | scripts/gold_report.py:57-61 | a missing file and an empty file both read as 0 |
| GoldSent.LoadCounterBlank | scripts/gold_report.py:61-63 | a whitespace-only file strips to "", which `int()` rejects, so it reads as 0 |
| GoldSent.CounterRoundTrip | scripts/gold_report.py:61-68 | what `_save_counter` writes, `_load_counter` reads back |
| GoldSent.SavedCount | scripts/gold_report.py:78-80 | one report moves the stored counter on by exactly one from whatever the file held |
| GoldSent.GoldTitleNumber | scripts/gold_report.py:78-81 | whatever the counter file held, negative values included, the title ends in "Nº {current + 1}" |
| GoldSent.LoadTelegramConfigured | scripts/gold_report.py:34-35 | messages go out exactly when both Telegram variables hold something besides whitespace |
| GoldSent.SentRoot.GetTitleWithCounter | scripts/gold_report.py:70-81 | the counter file then holds `str(current + 1)`, that save is recorded, and the title carries `current + 1`; the flags are untouched |
| GoldSent.SentRoot.SaveCounter | scripts/gold_report.py:65-68 | the file holds `str(value)` and nothing else changes |
| GoldSent.SentRoot.SendTelegram | scripts/gold_report.py:321-338 | one POST of `TelegramRequest` (the bot URL, chat id, text, no preview, Markdown when asked) when the token and chat id are set, none otherwise; it raises exactly when that POST gets no answer, while an error status is swallowed; files untouched |
| GoldSent.SentRoot.TouchFlag | scripts/gold_report.py:383 | the day's flag exists afterwards; the counter is untouched |
| GoldWorldBank.Scan | scripts/gold_report.py:186-189 | the loop over rows: falsy rows and rows whose "value" is missing or null are passed over; the first other row is returned, or raises when it is not a dict |
| GoldWorldBank.ScanFirstDecisive | scripts/gold_report.py:186-188 | the first row not passed over decides the result |
| GoldWorldBank.ScanAllSkipped | scripts/gold_report.py:189 | with every row passed over, there is no value |
| GoldWorldBank.ScanRows | scripts/gold_report.py:185-189 | the loop with its early return computes `Scan` |
| GoldWorldBank.LastValue | scripts/gold_report.py:182-189 | `_last_value` computes `LastValueOf` |
| GoldWorldBank.LastValueCases | scripts/gold_report.py:183-189 | anything but a list of two or more entries has no value; otherwise the first usable row of `wb_json[1]` is returned, with a falsy `wb_json[1]` read as `[]` |
| GoldWorldBank.ScanValues | scripts/gold_report.py:187-188 | every observation returned carries a non-null value |
| GoldWorldBank.FetchWorldReserves | scripts/gold_report.py:161-197 | computes `WorldReserves` from the two answers |
| GoldWorldBank.WorldReservesReported | scripts/gold_report.py:165-197 | the result exists only when the total series answered; every reported observation has a value; a failed gold series loses only the gold entry |
| GoldSummaryPrompt.CollectMarketItems | scripts/gold_report.py:222-230 | one item per price present, in the order spot, GC=F, GLD, IAU |
| GoldSummaryPrompt.CollectReservesItems | scripts/gold_report.py:244-248 | one item per series that is present with a non-null value, total first |
| GoldSummaryPrompt.BuildSummaryPrompt | scripts/gold_report.py:207-261 | the prompt is the `SummaryParts` lines joined by "\n" |
| GoldSummaryPrompt.SummaryShape | scripts/gold_report.py:216-261 | three fixed opening lines naming the date, an optional market line, the DXY line, an optional reserves line, exactly one COT sentence and the fixed closing line: 6 to 8 lines |
| GoldSummaryPrompt.MarketLineIff | scripts/gold_report.py:221-232 | the market line is there exactly when some price is, with one item per price present, spot first and IAU last |
| GoldSummaryPrompt.DxyLineIff | scripts/gold_report.py:235-238 | the fixed "DXY: sem dados hoje." is used exactly when there is no DXY value |
| GoldSummaryPrompt.ReservesLineIff | scripts/gold_report.py:241-252 | the reserves line is there exactly when the lookup returned something, and is the fallback sentence exactly when neither series has a value |
| GoldSummaryPrompt.CotLineIff | scripts/gold_report.py:255-258 | the partial-data COT sentence is used exactly when `cot` is truthy |
| GoldSummaryPrompt.PromptLines | scripts/gold_report.py:261 | when the date label and rendered values hold no line break, the prompt splits back into exactly its parts |
| GoldFallback.LoadKeysStripped | scripts/gold_report.py:38-40 | each provider's key is its variable stripped, and blank exactly when the variable is missing or only whitespace |
| GoldFallback.GoldPayloadShape | scripts/gold_report.py:275-280 | the body holds the provider's model, the prompt as the single user message, temperature 0.3 and `max_tokens` 600, and nothing else |
| GoldFallback.GoldRequestCarries | scripts/gold_report.py:273-281 | the POST goes to the provider's fixed URL with the bearer headers of its key and that body |
| GoldFallback.GoldExtractAgrees | scripts/gold_report.py:282 | wherever the clients' strict lookup finds text, the gold lookup finds the same text and strips it |
| GoldFallback.GoldExtractNoChoices | scripts/gold_report.py:282 | a body whose `choices` is missing or empty reads as "", not an error |
| GoldFallback.GoldExtractCompletion | scripts/gold_report.py:296 | a standard answer yields its content stripped |
| GoldFallback.GenerateViaCases | scripts/gold_report.py:270-282 | a blank key raises before any request; otherwise the result is the HTTP error or the extracted text |
| GoldFallback.TurnsOfAt | scripts/gold_report.py:313 | the i-th attempt is that of the i-th provider in the order tried |
| GoldFallback.FirstAnswerFirstSuccess | scripts/gold_report.py:313-315 | the first provider that returns decides the summary, and only it and the providers before it were asked |
| GoldFallback.FirstAnswerAllFail | scripts/gold_report.py:316-318 | when every provider raises, the summary is the fixed sentence, never an error |
| GoldFallback.FallbackStep | scripts/gold_report.py:313-317 | one loop step: a provider that returns ends the loop with its text; one that raises moves on with its requests recorded |
| GoldFallback.GenerateSummaryWithFallback | scripts/gold_report.py:312-318 | the loop returns the first answer of groq, openai, deepseek in that order, or the fixed sentence, with exactly the requests sent on the way |
| GoldFallback.GroqAnswersAlone | scripts/gold_report.py:313-315 | when Groq returns, only Groq is asked |
| GoldFallback.EmptyAnswerRead | scripts/gold_report.py:282 | a 200 answer without `choices` is the empty text, not a failure |
| GoldFallback.EmptyAnswerStops | scripts/gold_report.py:282 | so the fallback stops at Groq with an empty summary and one request |
| GoldFallback.KeylessTurn | scripts/gold_report.py:271-272 | a provider without a key raises without sending anything |
| GoldFallback.KeylessSilent | scripts/gold_report.py:312-318 | providers none of which has a key send nothing and leave the fixed sentence |
| GoldFallback.NoKeysNoRequests | scripts/gold_report.py:312-318 | with no key configured at all, no request is sent and the summary is the fixed sentence |
| GoldReport.RunEffectsOrder | scripts/gold_report.py:349-383 | the counter is saved first; only messages follow it, then the flag last, which is there exactly when no POST raised; such a run posts two messages exactly when Telegram is set up, and a run that raised had Telegram set up and stops right after the POST that raised |
| GoldReport.TelegramEffectsShape | scripts/gold_report.py:322-324 | a send produces at most one message, and one exactly when Telegram is set up |
| GoldReport.RunReport | scripts/gold_report.py:340-384 | a flag for today returns before anything changes; otherwise the counter moves on by one, then the data message, the summary from the fallback and the flag, in that order; a POST without an answer raises out of `main` with the counter saved and no flag |

## Left out

- Network I/O is not executed. The Yahoo, FRED and World Bank fetches are
  outcomes passed in. The POSTs to the model providers and to Telegram
  `sendMessage` (`TelegramRequest`) are answered by the `send` parameter.
  `check_piapi.py`, an account ping, is left out.
- The `@retry` policies (`scripts/gold_report.py:84`, `:264`) are a timing
  policy of a third-party library; a call is one outcome. `_get_json` tries
  up to three times and `_post_json` up to two, so one provider's turn in
  the fallback can be two POSTs where `Sent` and `AttemptRequests` count one.
- Floating point is not modelled:
  - temperatures are reals passed through;
  - quote rounding and elapsed-time formatting are left out;
  - numbers in the prompt are rendered by the `show` parameter.
- Python's `str()`/`repr` of an answer, `json.dumps`, the locale's `%B` and
  `html.escape` are parameters or left out. Their exact text is not modelled.
- The clock is one `Date` per run (`today`). The BRT and UTC readings of the
  scripts, and a run that crosses midnight, are not distinguished.
- Strings are sequences of characters. `lower()` maps the capitals of ASCII and
  Latin-1; the rest of Unicode case mapping is not modelled. Python's `int()` is modelled on
  ASCII digits, an optional sign and underscores; other Unicode digits are
  not modelled.
- Module-level settings are the values the script read when loaded:
  - `keys: ApiKeys`, that is `LoadKeys(env)`;
  - `telegram: TelegramSecrets`, that is `LoadTelegram(env)`;
  - `fredKey`, that is `FredKey(env)`.
- `EnvFile.LoadLines` parses every line before loading. The source parses and
  loads line by line. Both give the same result because parsing does not
  depend on the environment.
- The `except` branches of `fetch_cftc_net_position`, `fetch_cftc_hg` and
  `fetch_cftc_silver` are not modelled: nothing in their `try` can raise.
- `gerar_analise_*` (the daily scripts' model calls and their prompts), the
  Telegram preview chat and the HTML escaping of the daily messages are left
  out. They are I/O with fixed text; the providers they call are modelled.
- `argparse` is left out. Only `--force` has an effect here.
- `llm.active_provider` is read by the three daily scripts
  (`scripts/gold_daily.py:198`, `scripts/copper_daily.py:128`,
  `scripts/silver_daily.py:128`). `LLMClient` defines only `provider`, so
  this read would raise; it is not modelled.
- The constructor's `RuntimeError` text is not modelled; it is a
  `ConfigError` value naming the key variable.
- DailyReport.CounterFile.TitleCounter models the counters file as a map from
  keys to integers, so entries that are not integers cannot be represented.
  The source converts only the entry for `key`, with `int()`, which also takes
  "5", 5.7 and `true`; it keeps every other entry as it was. It raises only
  on a file whose JSON is not a dict, or on a `key` entry `int()` refuses,
  such as "abc" or `null`. None of these is modelled.
- DailyReport.SealFile.SentGuard models a seal that is not valid JSON as
  `None`; its text is not modelled.
- GoldSent.LoadCounter: a file that cannot be read (permissions, encoding) is
  modelled as missing.
- Ordering of keys inside JSON objects is not modelled: Python's dict order is
  invisible to the model.
