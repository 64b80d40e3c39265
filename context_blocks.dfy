/** The factual context each daily script hands to the model: one fixed
    sentence per topic, of which only the CFTC line depends on anything
    (whether HTTP is available and whether a FRED key is configured). */
module ContextBlocks {
  import opened Wrappers
  import opened Text
  import opened Settings
  import opened DailyReport
  import opened ContextSentences

  const FredKeyVariable: string := "FRED_API_KEY"

  /** `os.environ.get("FRED_API_KEY", "").strip() or None`. */
  function FredKey(env: Env): (r: Option<string>)
    ensures r.Some? ==> r.value != "" && IsStripped(r.value)
    ensures r.None? <==> AllSpace(EnvGet(env, FredKeyVariable, ""))
  {
    var key := Strip(EnvGet(env, FredKeyVariable, ""));
    if key == "" then None else Some(key)
  }

  // ---------------------------------------------------------------- CFTC line

  function CftcEstimate(m: Metal): string {
    match m
    case Gold => GoldCftcEstimate
    case Copper => CopperCftcEstimate
    case Silver => SilverCftcEstimate
  }

  function CftcSourced(m: Metal): string {
    match m
    case Gold => GoldCftcSourced
    case Copper => CopperCftcSourced
    case Silver => SilverCftcSourced
  }

  /** `fetch_cftc_net_position` / `fetch_cftc_hg` / `fetch_cftc_silver`:
      the estimate unless `requests` was imported and a key was given. Their
      `except` branch, with a third sentence, is unreachable: nothing in the
      `try` can raise. */
  function CftcLine(m: Metal, requestsAvailable: bool, fredKey: Option<string>): string {
    if !requestsAvailable || fredKey.None? then CftcEstimate(m) else CftcSourced(m)
  }

  /** The sourced sentence is used exactly when HTTP is available and the
      FRED key is not blank. */
  lemma CftcSourcedIff(m: Metal, requestsAvailable: bool, env: Env)
    ensures CftcLine(m, requestsAvailable, FredKey(env)) == CftcSourced(m)
            <==> requestsAvailable && !AllSpace(EnvGet(env, FredKeyVariable, ""))
  {
    assert |CftcEstimate(m)| != |CftcSourced(m)|;
  }

  // ---------------------------------------------------------------- block

  /** The lines of each block, in the order the scripts list them, with
      the CFTC line second. */
  function ContextLines(m: Metal, cftc: string): (r: seq<string>)
    ensures |r| == (if m == Gold then 4 else 8) && r[1] == cftc
  {
    match m
    case Gold => [GoldFlows, cftc, GoldReserves, GoldMacro]
    case Copper => [CopperFlows, cftc, CopperInventories, CopperSupply, CopperDemand, CopperDxy, CopperRates, CopperResearch]
    case Silver => [SilverFlows, cftc, SilverReserves, SilverSupply, SilverIndustry, SilverDxy, SilverRates, SilverResearch]
  }

  /** `build_context_block()`: the lines joined by "\n". `fredKey` is what
      the CFTC helper reads from the environment, `FredKey(env)`. */
  function ContextBlock(m: Metal, requestsAvailable: bool, fredKey: Option<string>): string {
    Join("\n", ContextLines(m, CftcLine(m, requestsAvailable, fredKey)))
  }

  lemma CftcSingle(m: Metal, requestsAvailable: bool, fredKey: Option<string>)
    ensures '\n' !in CftcLine(m, requestsAvailable, fredKey)
  {
    match m {
      case Gold => GoldCftcEstimateSingle(); GoldCftcSourcedSingle();
      case Copper => CopperCftcEstimateSingle(); CopperCftcSourcedSingle();
      case Silver => SilverCftcEstimateSingle(); SilverCftcSourcedSingle();
    }
  }

  /** Four lines, none of which holds a line break. */
  lemma SingleLines4(a: string, b: string, c: string, d: string)
    requires '\n' !in a && '\n' !in b && '\n' !in c && '\n' !in d
    ensures forall i :: 0 <= i < 4 ==> '\n' !in [a, b, c, d][i]
  {
  }

  /** Eight lines, none of which holds a line break. */
  lemma SingleLines8(a: string, b: string, c: string, d: string, e: string, f: string, g: string, h: string)
    requires '\n' !in a && '\n' !in b && '\n' !in c && '\n' !in d
    requires '\n' !in e && '\n' !in f && '\n' !in g && '\n' !in h
    ensures forall i :: 0 <= i < 8 ==> '\n' !in [a, b, c, d, e, f, g, h][i]
  {
  }

  /** The text of a block with a given CFTC line splits back into its lines. */
  lemma GoldBlockLines(cftc: string)
    requires '\n' !in cftc
    ensures Lines(Join("\n", ContextLines(Gold, cftc))) == ContextLines(Gold, cftc)
  {
    GoldFlowsSingle(); GoldReservesSingle(); GoldMacroSingle();
    SingleLines4(GoldFlows, cftc, GoldReserves, GoldMacro);
    SplitJoin(ContextLines(Gold, cftc), '\n');
  }

  lemma CopperBlockLines(cftc: string)
    requires '\n' !in cftc
    ensures Lines(Join("\n", ContextLines(Copper, cftc))) == ContextLines(Copper, cftc)
  {
    CopperFlowsSingle(); CopperInventoriesSingle(); CopperSupplySingle(); CopperDemandSingle();
    CopperDxySingle(); CopperRatesSingle(); CopperResearchSingle();
    SingleLines8(CopperFlows, cftc, CopperInventories, CopperSupply, CopperDemand, CopperDxy, CopperRates, CopperResearch);
    SplitJoin(ContextLines(Copper, cftc), '\n');
  }

  lemma SilverBlockLines(cftc: string)
    requires '\n' !in cftc
    ensures Lines(Join("\n", ContextLines(Silver, cftc))) == ContextLines(Silver, cftc)
  {
    SilverFlowsSingle(); SilverReservesSingle(); SilverSupplySingle(); SilverIndustrySingle();
    SilverDxySingle(); SilverRatesSingle(); SilverResearchSingle();
    SingleLines8(SilverFlows, cftc, SilverReserves, SilverSupply, SilverIndustry, SilverDxy, SilverRates, SilverResearch);
    SplitJoin(ContextLines(Silver, cftc), '\n');
  }

  /** The block reads back line by line as the sentences it was made of:
      four for gold, eight for copper and silver, the CFTC line second. */
  lemma ContextBlockLines(m: Metal, requestsAvailable: bool, fredKey: Option<string>)
    ensures Lines(ContextBlock(m, requestsAvailable, fredKey)) == ContextLines(m, CftcLine(m, requestsAvailable, fredKey))
  {
    var cftc := CftcLine(m, requestsAvailable, fredKey);
    CftcSingle(m, requestsAvailable, fredKey);
    match m {
      case Gold => GoldBlockLines(cftc);
      case Copper => CopperBlockLines(cftc);
      case Silver => SilverBlockLines(cftc);
    }
  }
}
