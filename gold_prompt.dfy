/** The gold report's summary prompt: the fixed instructions, then one
    line per kind of data the run could gather. */
module GoldSummaryPrompt {
  import opened Wrappers
  import opened Text
  import opened JsonValues
  import opened PromptSentences
  import opened GoldWorldBank

  // ---------------------------------------------------------------- prompt

  /** `fetch_yahoo_quotes()`: each price may be missing. */
  datatype Quotes = Quotes(spot: Option<real>, futures: Option<real>, gld: Option<real>, iau: Option<real>)

  /** `dxy["last"]` from `fetch_fred_dxy()`; the value is `None` where
      `float()` failed. */
  datatype DxyLast = DxyLast(date: Json, value: Option<real>)

  /** One market item, present only when its price is. `show` is Python's
      `str()` as an f-string applies it. */
  function QuoteItem(caption: string, price: Option<real>, unit: string, show: Json -> string): seq<string> {
    if price.Some? then [caption + show(JFloat(price.value)) + unit] else []
  }

  /** The items of `mercado_linha`, in the order spot, GC=F, GLD, IAU. */
  function MarketItems(q: Quotes, show: Json -> string): seq<string> {
    QuoteItem(SpotLabel, q.spot, SpotUnit, show) + QuoteItem(FuturesLabel, q.futures, "", show)
      + QuoteItem(GldLabel, q.gld, "", show) + QuoteItem(IauLabel, q.iau, "", show)
  }

  predicate AnyQuote(q: Quotes) {
    q.spot.Some? || q.futures.Some? || q.gld.Some? || q.iau.Some?
  }

  function PresentCount(q: Quotes): nat {
    (if q.spot.Some? then 1 else 0) + (if q.futures.Some? then 1 else 0)
      + (if q.gld.Some? then 1 else 0) + (if q.iau.Some? then 1 else 0)
  }

  /** The market line, when there is anything to list. */
  function MarketPart(q: Quotes, show: Json -> string): seq<string> {
    var items := MarketItems(q, show);
    if items != [] then [MarketHeading + Join(ItemSeparator, items)] else []
  }

  function DxyLine(dxy: Option<DxyLast>, show: Json -> string): string {
    if dxy.Some? && dxy.value.value.Some? then
      DxyLabel + show(JFloat(dxy.value.value.value)) + DxyDateLabel + show(dxy.value.date) + ClosingParen
    else DxyMissing
  }

  /** One reserves item: `tr and tr.get("value") is not None`. */
  function ObservationItem(caption: string, o: Option<Observation>, show: Json -> string): seq<string> {
    if o.Some? && o.value.value != JNull then
      [caption + show(o.value.value) + YearLabel + show(o.value.date) + ClosingParen]
    else []
  }

  /** The reserves line: none without data, the fallback sentence when
      neither series has a value. */
  function ReservesPart(reserves: Option<Reserves>, show: Json -> string): seq<string> {
    match reserves
    case None => []
    case Some(r) =>
      var items := ObservationItem(TotalReservesLabel, r.total, show) + ObservationItem(GoldReservesLabel, r.gold, show);
      if items != [] then [ReservesHeading + Join(ItemSeparator, items)] else [ReservesMissing]
  }

  function CotLine(cot: Json): string {
    if Truthy(cot) then CotPartial else CotMissing
  }

  function Intro(dateLabel: string): string {
    IntroStart + dateLabel + IntroEnd
  }

  /** The `parts` list of `build_summary_prompt`. */
  function SummaryParts(dateLabel: string, market: Quotes, dxy: Option<DxyLast>, reserves: Option<Reserves>,
                        cot: Json, show: Json -> string): seq<string>
  {
    [Intro(dateLabel), FormatLine, StyleLine] + MarketPart(market, show) + [DxyLine(dxy, show)]
      + ReservesPart(reserves, show) + [CotLine(cot), Closing]
  }

  /** The `mercado_linha` list: one item per price present, in order. */
  method CollectMarketItems(market: Quotes, show: Json -> string) returns (items: seq<string>)
    ensures items == MarketItems(market, show)
  {
    items := [];
    match market.spot {
      case Some(x) => items := items + [SpotLabel + show(JFloat(x)) + SpotUnit];
      case None =>
    }
    match market.futures {
      case Some(x) => items := items + [FuturesLabel + show(JFloat(x)) + ""];
      case None =>
    }
    match market.gld {
      case Some(x) => items := items + [GldLabel + show(JFloat(x)) + ""];
      case None =>
    }
    match market.iau {
      case Some(x) => items := items + [IauLabel + show(JFloat(x)) + ""];
      case None =>
    }
  }

  /** The `r_parts` list: one item per series that has a value. */
  method CollectReservesItems(r: Reserves, show: Json -> string) returns (items: seq<string>)
    ensures items == ObservationItem(TotalReservesLabel, r.total, show) + ObservationItem(GoldReservesLabel, r.gold, show)
  {
    items := [];
    match r.total {
      case Some(tr) =>
        if tr.value != JNull {
          items := items + [TotalReservesLabel + show(tr.value) + YearLabel + show(tr.date) + ClosingParen];
        }
      case None =>
    }
    match r.gold {
      case Some(gr) =>
        if gr.value != JNull {
          items := items + [GoldReservesLabel + show(gr.value) + YearLabel + show(gr.date) + ClosingParen];
        }
      case None =>
    }
  }

  /** The first lines of `parts`: the instructions, then the market line
      when there is any price. */
  method OpeningLines(dateLabel: string, market: Quotes, show: Json -> string) returns (parts: seq<string>)
    ensures parts == [Intro(dateLabel), FormatLine, StyleLine] + MarketPart(market, show)
  {
    parts := [];
    parts := parts + [IntroStart + dateLabel + IntroEnd];
    parts := parts + [FormatLine];
    parts := parts + [StyleLine];
    var marketItems := CollectMarketItems(market, show);
    if marketItems != [] {
      parts := parts + [MarketHeading + Join(ItemSeparator, marketItems)];
    }
  }

  /** The DXY line and, when the lookup returned, the reserves line. */
  method DataLines(parts: seq<string>, dxy: Option<DxyLast>, reserves: Option<Reserves>, show: Json -> string)
    returns (r: seq<string>)
    ensures r == parts + [DxyLine(dxy, show)] + ReservesPart(reserves, show)
  {
    r := parts;
    match dxy {
      case Some(DxyLast(date, Some(v))) =>
        r := r + [DxyLabel + show(JFloat(v)) + DxyDateLabel + show(date) + ClosingParen];
      case _ =>
        r := r + [DxyMissing];
    }
    match reserves {
      case Some(rs) =>
        var reservesItems := CollectReservesItems(rs, show);
        if reservesItems != [] {
          r := r + [ReservesHeading + Join(ItemSeparator, reservesItems)];
        } else {
          r := r + [ReservesMissing];
        }
      case None =>
    }
  }

  /** `build_summary_prompt(date_label, market, dxy, reserves, cot)`: the
      opening lines, the data lines, one COT sentence and the closing
      line, joined by line breaks. */
  method BuildSummaryPrompt(dateLabel: string, market: Quotes, dxy: Option<DxyLast>, reserves: Option<Reserves>,
                            cot: Json, show: Json -> string) returns (prompt: string)
    ensures prompt == Join("\n", SummaryParts(dateLabel, market, dxy, reserves, cot, show))
  {
    var parts := OpeningLines(dateLabel, market, show);
    parts := DataLines(parts, dxy, reserves, show);
    ghost var data := parts;
    if Truthy(cot) {
      parts := parts + [CotPartial];
    } else {
      parts := parts + [CotMissing];
    }
    parts := parts + [Closing];
    AppendTwo(data, CotLine(cot), Closing);
    prompt := Join("\n", parts);
  }

  /** Two appends of one line each append both lines. */
  lemma AppendTwo<T>(s: seq<T>, a: T, b: T)
    ensures s + [a] + [b] == s + [a, b]
  {
  }

  /** The shape of the prompt: three fixed opening lines (the first naming
      the date), an optional market line, the DXY line, an optional reserves
      line, exactly one of the two COT sentences and the fixed closing line. */
  lemma SummaryShape(dateLabel: string, market: Quotes, dxy: Option<DxyLast>, reserves: Option<Reserves>,
                     cot: Json, show: Json -> string)
    ensures var p := SummaryParts(dateLabel, market, dxy, reserves, cot, show);
            && |p| == 6 + |MarketPart(market, show)| + |ReservesPart(reserves, show)|
            && 6 <= |p| <= 8
            && p[0] == IntroStart + dateLabel + IntroEnd && p[1] == FormatLine && p[2] == StyleLine
            && p[|p| - 2] == CotLine(cot) && p[|p| - 1] == Closing
            && p[3 + |MarketPart(market, show)|] == DxyLine(dxy, show)
  {
  }

  /** The market line is there exactly when some price is, and it lists one
      item per price present. */
  lemma MarketLineIff(market: Quotes, show: Json -> string)
    ensures MarketPart(market, show) != [] <==> AnyQuote(market)
    ensures |MarketItems(market, show)| == PresentCount(market)
    ensures market.spot.Some? ==> MarketItems(market, show)[0] == SpotLabel + show(JFloat(market.spot.value)) + SpotUnit
    ensures market.iau.Some? ==>
              MarketItems(market, show)[PresentCount(market) - 1] == IauLabel + show(JFloat(market.iau.value))
  {
  }

  /** The DXY line falls back to its fixed sentence exactly when there is
      no value. */
  lemma DxyLineIff(dxy: Option<DxyLast>, show: Json -> string)
    ensures DxyLine(dxy, show) == DxyMissing <==> !(dxy.Some? && dxy.value.value.Some?)
  {
  }

  /** The reserves line is there exactly when the lookup returned, and is
      the fallback sentence exactly when neither series has a value. */
  lemma ReservesLineIff(reserves: Option<Reserves>, show: Json -> string)
    ensures ReservesPart(reserves, show) != [] <==> reserves.Some?
    ensures ReservesPart(reserves, show) == [ReservesMissing] <==>
              reserves.Some?
              && !(reserves.value.total.Some? && reserves.value.total.value.value != JNull)
              && !(reserves.value.gold.Some? && reserves.value.gold.value.value != JNull)
  {
    match reserves {
      case Some(r) =>
        var items := ObservationItem(TotalReservesLabel, r.total, show) + ObservationItem(GoldReservesLabel, r.gold, show);
        HeadingNotMissing(Join(ItemSeparator, items));
      case None =>
    }
  }

  /** The reserves heading ("Reservas (World Bank): ") and the fallback
      sentence ("Reservas: sem dados ...") part at their ninth character. */
  lemma HeadingNotMissing(items: string)
    ensures ReservesHeading + items != ReservesMissing
  {
    assert (ReservesHeading + items)[8] == ReservesHeading[8] == ' ';
    assert ReservesMissing[8] == ':';
  }

  /** The partial-data COT sentence is used exactly when `cot` is truthy. */
  lemma CotLineIff(cot: Json)
    ensures CotLine(cot) == CotPartial <==> Truthy(cot)
  {
  }

  // ---------------------------------------------------------------- one line each

  predicate SingleLines(ps: seq<string>) {
    forall i :: 0 <= i < |ps| ==> '\n' !in ps[i]
  }

  lemma {:induction false} JoinSingle(sep: string, parts: seq<string>)
    requires '\n' !in sep && SingleLines(parts)
    ensures '\n' !in Join(sep, parts)
  {
    if |parts| > 1 {
      JoinSingle(sep, parts[1..]);
    }
  }

  lemma ItemsSingle(show: Json -> string, market: Quotes, reserves: Option<Reserves>)
    requires forall j :: '\n' !in show(j)
    ensures SingleLines(MarketPart(market, show))
    ensures SingleLines(ReservesPart(reserves, show))
  {
    SpotLabelSingle(); SpotUnitSingle(); FuturesLabelSingle(); GldLabelSingle(); IauLabelSingle();
    MarketHeadingSingle(); ItemSeparatorSingle();
    JoinSingle(ItemSeparator, MarketItems(market, show));
    TotalReservesLabelSingle(); GoldReservesLabelSingle(); YearLabelSingle(); ClosingParenSingle();
    ReservesHeadingSingle(); ReservesMissingSingle();
    if reserves.Some? {
      var r := reserves.value;
      JoinSingle(ItemSeparator, ObservationItem(TotalReservesLabel, r.total, show) + ObservationItem(GoldReservesLabel, r.gold, show));
    }
  }

  lemma FixedLinesSingle(dateLabel: string, dxy: Option<DxyLast>, cot: Json, show: Json -> string)
    requires '\n' !in dateLabel
    requires forall j :: '\n' !in show(j)
    ensures SingleLines([Intro(dateLabel), FormatLine, StyleLine])
    ensures '\n' !in DxyLine(dxy, show)
    ensures SingleLines([CotLine(cot), Closing])
  {
    IntroStartSingle(); IntroEndSingle(); FormatLineSingle(); StyleLineSingle();
    DxyLabelSingle(); DxyDateLabelSingle(); ClosingParenSingle(); DxyMissingSingle();
    CotPartialSingle(); CotMissingSingle(); ClosingSingle();
  }

  lemma SingleLinesConcat(a: seq<string>, b: seq<string>)
    requires SingleLines(a) && SingleLines(b)
    ensures SingleLines(a + b)
  {
  }

  /** The prompt splits back into its parts whenever the date label and the
      rendered values hold no line break. */
  lemma PromptLines(dateLabel: string, market: Quotes, dxy: Option<DxyLast>, reserves: Option<Reserves>,
                    cot: Json, show: Json -> string)
    requires '\n' !in dateLabel
    requires forall j :: '\n' !in show(j)
    ensures Lines(Join("\n", SummaryParts(dateLabel, market, dxy, reserves, cot, show)))
            == SummaryParts(dateLabel, market, dxy, reserves, cot, show)
  {
    FixedLinesSingle(dateLabel, dxy, cot, show);
    ItemsSingle(show, market, reserves);
    var opening := [Intro(dateLabel), FormatLine, StyleLine];
    var market' := MarketPart(market, show);
    var dxy' := [DxyLine(dxy, show)];
    var reserves' := ReservesPart(reserves, show);
    var closing := [CotLine(cot), Closing];
    SingleLinesConcat(opening, market');
    SingleLinesConcat(opening + market', dxy');
    SingleLinesConcat(opening + market' + dxy', reserves');
    SingleLinesConcat(opening + market' + dxy' + reserves', closing);
    SplitJoin(SummaryParts(dateLabel, market, dxy, reserves, cot, show), '\n');
  }
}
