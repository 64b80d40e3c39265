/** The bookkeeping every daily script (gold, copper, silver) does before it
    asks for an analysis: a once-a-day seal file holding the last date sent,
    a counters file numbering each report, and the title built from both. */
module DailyReport {
  import opened Wrappers
  import opened Text
  import opened Dates
  import opened JsonValues
  import opened Settings
  import opened EnvFile

  datatype Metal = Gold | Copper | Silver

  /** The entry of the counters file each script numbers its reports with. */
  function CounterKey(m: Metal): string {
    match m
    case Gold => "diario_ouro"
    case Copper => "diario_cobre"
    case Silver => "diario_prata"
  }

  function PairLabel(m: Metal): string {
    match m
    case Gold => "Ouro (XAU/USD)"
    case Copper => "Cobre (XCU/USD)"
    case Silver => "Prata (XAG/USD)"
  }

  const Daily: string := "Di\U{E1}rio"
  const TitleSeparator: string := " \U{2014} "

  // ---------------------------------------------------------------- title

  /** "📊 Dados de Mercado — {pair} — {date} — {frequency} — Nº {n}", the
      title format shared by the daily scripts and the gold report. */
  function MarketTitle(pair: string, date: string, frequency: string, n: int): string {
    "\U{1F4CA} Dados de Mercado" + TitleSeparator + pair + TitleSeparator + date
      + TitleSeparator + frequency + TitleSeparator + "N\U{BA} " + IntToString(n)
  }

  /** The report number a title ends with: its trailing digits, negated when
      a minus sign stands right before them. */
  function TitleNumber(title: string): int {
    var digits := TrailingDigits(title);
    var rest := title[..|title| - |digits|];
    if rest != [] && rest[|rest| - 1] == '-' then -(DigitsValue(digits) as int) else DigitsValue(digits)
  }

  /** The number in a title is the counter value it was built from, whatever
      the pair, date and frequency say, negative values included. */
  lemma {:induction false} TitleNumberRoundTrip(pair: string, date: string, frequency: string, n: int)
    ensures TitleNumber(MarketTitle(pair, date, frequency, n)) == n
  {
    var rest := "\U{1F4CA} Dados de Mercado" + TitleSeparator + pair + TitleSeparator + date
      + TitleSeparator + frequency + TitleSeparator + "N\U{BA} ";
    var title := MarketTitle(pair, date, frequency, n);
    assert rest[|rest| - 1] == ' ';
    if n < 0 {
      var digits := NatToString(-n);
      var signed := rest + "-";
      assert title == signed + digits;
      TrailingDigitsOf(signed, digits);
      assert title[..|title| - |digits|] == signed;
    } else {
      var digits := NatToString(n);
      assert title == rest + digits;
      TrailingDigitsOf(rest, digits);
      assert title[..|title| - |digits|] == rest;
    }
  }

  // ---------------------------------------------------------------- counters

  type Counters = map<string, int>

  /** What `title_counter` starts from: the file's dict, or `{}` when the
      file is missing or cannot be read as JSON. */
  function Stored(file: Option<Counters>): Counters {
    match file
    case Some(data) => data
    case None => map[]
  }

  /** `data.get(key, 0)`. */
  function CountOf(data: Counters, key: string): int {
    if key in data then data[key] else 0
  }

  /** The dict after one increment of `key`. */
  function Bumped(data: Counters, key: string): Counters {
    data[key := CountOf(data, key) + 1]
  }

  /** One run numbers only its own report: every other entry keeps its
      value, and a missing entry becomes 1. */
  lemma BumpedOnlyKey(data: Counters, key: string, other: string)
    requires other != key
    ensures CountOf(Bumped(data, key), key) == CountOf(data, key) + 1
    ensures other in Bumped(data, key) <==> other in data
    ensures CountOf(Bumped(data, key), other) == CountOf(data, other)
  {
  }

  /** The counters after a run of each report named in `keys`, in order. */
  function BumpAll(data: Counters, keys: seq<string>): Counters
    decreases |keys|
  {
    if keys == [] then data else BumpAll(Bumped(data, keys[0]), keys[1..])
  }

  function Occurrences(keys: seq<string>, key: string): nat {
    if keys == [] then 0 else (if keys[0] == key then 1 else 0) + Occurrences(keys[1..], key)
  }

  /** Scripts sharing one counters file do not disturb each other: after any
      sequence of runs, a report's number has grown by exactly the number of
      runs of that report. */
  lemma {:induction false} CountAfterRuns(data: Counters, keys: seq<string>, key: string)
    ensures CountOf(BumpAll(data, keys), key) == CountOf(data, key) + Occurrences(keys, key)
    decreases |keys|
  {
    if keys != [] {
      CountAfterRuns(Bumped(data, keys[0]), keys[1..], key);
    }
  }

  /** The counters file; `None` stands for a file that is missing or does not
      parse. */
  class CounterFile {
    var contents: Option<Counters>

    constructor (contents: Option<Counters>)
      ensures this.contents == contents
    {
      this.contents := contents;
    }

    /** `title_counter(path, key)`: read, increment `key`, write the whole
        dict back, return the new value. */
    method TitleCounter(key: string) returns (n: int)
      modifies this
      ensures n == CountOf(Stored(old(contents)), key) + 1
      ensures contents == Some(Bumped(Stored(old(contents)), key))
    {
      var data: Counters := map[];
      if contents.Some? {
        data := contents.value;
      }
      data := data[key := CountOf(data, key) + 1];
      contents := Some(data);
      n := data[key];
    }
  }

  // ---------------------------------------------------------------- seal

  /** The seal as `sent_guard` writes it: `{"last_sent": tag}`. */
  function SealJson(tag: string): Json {
    JObj(map["last_sent" := JStr(tag)])
  }

  /** `data.get("last_sent") == today_tag` on the parsed seal; a missing or
      unparsable file, or a document that is not a dict, never matches. */
  predicate Sealed(contents: Option<Json>, tag: string) {
    && contents.Some?
    && contents.value.JObj?
    && "last_sent" in contents.value.fields
    && contents.value.fields["last_sent"] == JStr(tag)
  }

  datatype GuardStep = GuardStep(already: bool, next: Option<Json>)

  /** One `sent_guard` call as a value: whether it reports "already sent",
      and the seal it leaves behind. */
  function Guard(contents: Option<Json>, tag: string): GuardStep {
    if Sealed(contents, tag) then GuardStep(true, contents) else GuardStep(false, Some(SealJson(tag)))
  }

  /** The guard is idempotent within a day: the first call of the day lets
      the report through and seals, the second call that day stops it and
      leaves the seal alone. */
  lemma {:induction false} GuardSameDay(contents: Option<Json>, tag: string)
    ensures !Sealed(contents, tag) ==> !Guard(contents, tag).already
    ensures Guard(Guard(contents, tag).next, tag) == GuardStep(true, Guard(contents, tag).next)
  {
    assert SealJson(tag).fields["last_sent"] == JStr(tag);
  }

  /** A seal written on one day stops the report on that same day and on no
      other. */
  lemma GuardAcrossDays(sealed: Date, today: Date)
    requires Valid(sealed) && Valid(today)
    ensures Guard(Some(SealJson(IsoTag(sealed))), IsoTag(today)).already <==> sealed == today
  {
    IsoTagInjective(sealed, today);
  }

  /** The seal file of one script. */
  class SealFile {
    var contents: Option<Json>

    constructor (contents: Option<Json>)
      ensures this.contents == contents
    {
      this.contents := contents;
    }

    /** `sent_guard(path)`: true, and nothing written, when the seal already
        names today; otherwise the seal is overwritten with today's tag
        alone and the answer is false. */
    method SentGuard(todayTag: string) returns (already: bool)
      modifies this
      ensures already == Guard(old(contents), todayTag).already
      ensures contents == Guard(old(contents), todayTag).next
    {
      if contents.Some? {
        match contents.value {
          case JObj(fields) =>
            if "last_sent" in fields && fields["last_sent"] == JStr(todayTag) {
              return true;
            }
          case _ =>
        }
      }
      contents := Some(SealJson(todayTag));
      already := false;
    }
  }

  // ---------------------------------------------------------------- main

  /** The title line of a daily report: the metal's pair, today's Portuguese
      label, "Diário" and the report number. */
  function DailyTitle(metal: Metal, today: Date, n: int): string
    requires Valid(today)
  {
    MarketTitle(PairLabel(metal), DateLabelPt(today), Daily, n)
  }

  /** After the environment is ready: unless `--force`, the seal may stop
      the run; only a run that gets past it takes a number and builds its
      title. With `--force` the seal is neither read nor written. */
  method SealAndNumber(metal: Metal, force: bool, today: Date, seal: SealFile, counters: CounterFile)
    returns (title: Option<string>)
    requires Valid(today)
    modifies seal, counters
    ensures force ==> seal.contents == old(seal.contents)
    ensures !force ==> seal.contents == Guard(old(seal.contents), IsoTag(today)).next
    ensures !force && Guard(old(seal.contents), IsoTag(today)).already ==>
              title.None? && counters.contents == old(counters.contents)
    ensures force || !Guard(old(seal.contents), IsoTag(today)).already ==>
              var key := CounterKey(metal);
              && counters.contents == Some(Bumped(Stored(old(counters.contents)), key))
              && title == Some(DailyTitle(metal, today, CountOf(Stored(old(counters.contents)), key) + 1))
  {
    if !force {
      var already := seal.SentGuard(IsoTag(today));
      if already {
        return None;
      }
    }
    ghost var before := counters.contents;
    var n := counters.TitleCounter(CounterKey(metal));
    assert before == old(counters.contents);
    title := Some(DailyTitle(metal, today, n));
  }

  /** The opening of each daily script's `main`: the gold script first
      fills the environment from its `.env` files (copper and silver do
      not), then the seal and the counter as above. */
  method RunDaily(metal: Metal, force: bool, today: Date, env: Env,
                  parentEnvFile: Option<seq<string>>, scriptEnvFile: Option<seq<string>>,
                  seal: SealFile, counters: CounterFile)
    returns (newEnv: Env, title: Option<string>)
    requires Valid(today)
    modifies seal, counters
    ensures metal == Gold ==> LoadedFrom(newEnv, env, PresentEntries([parentEnvFile, scriptEnvFile]))
    ensures metal != Gold ==> newEnv == env
    ensures force ==> seal.contents == old(seal.contents)
    ensures !force ==> seal.contents == Guard(old(seal.contents), IsoTag(today)).next
    ensures !force && Guard(old(seal.contents), IsoTag(today)).already ==>
              title.None? && counters.contents == old(counters.contents)
    ensures force || !Guard(old(seal.contents), IsoTag(today)).already ==>
              var key := CounterKey(metal);
              && counters.contents == Some(Bumped(Stored(old(counters.contents)), key))
              && title == Some(DailyTitle(metal, today, CountOf(Stored(old(counters.contents)), key) + 1))
  {
    newEnv := env;
    if metal == Gold {
      newEnv := LoadEnvIfPresent(env, parentEnvFile, scriptEnvFile);
    }
    title := SealAndNumber(metal, force, today, seal, counters);
  }
}
