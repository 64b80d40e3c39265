/** The fixed sentences of the daily context blocks, each with the fact
    that it fits on one line. The sentences are written in short pieces:
    facts about the characters of one long string literal are far more
    expensive for the verifier than the same facts about a few short ones. */
module ContextSentences {

  // ---------------------------------------------------------------- gold

  const GoldFlows: string :=
    ("- " + "GLD/IAU: " + "movimentos ") + ("recentes " + "indicam " + "entradas ")
      + ("moderadas " + "e " + "recomposi\U{E7}\U{E3}o ")
      + ("parcial " + "de " + "posi\U{E7}\U{E3}o.")

  lemma GoldFlowsSingle()
    ensures '\n' !in GoldFlows
  {
  }

  const GoldCftcEstimate: string :=
    ("- CFTC " + "Net " + "Position ") + ("(GC): " + "leve " + "aumento ")
      + ("na " + "posi\U{E7}\U{E3}o " + "l\U{ED}quida ")
      + ("comprada " + "(estimativa).")

  lemma GoldCftcEstimateSingle()
    ensures '\n' !in GoldCftcEstimate
  {
  }

  const GoldCftcSourced: string :=
    ("- CFTC " + "Net " + "Position ") + ("(GC): " + "leve " + "aumento ")
      + ("na " + "posi\U{E7}\U{E3}o " + "l\U{ED}quida ")
      + ("comprada " + "(fonte: " + "FRED).")

  lemma GoldCftcSourcedSingle()
    ensures '\n' !in GoldCftcSourced
  {
  }

  const GoldReserves: string :=
    ("- " + "Reservas " + "LBMA/COMEX: ") + ("estoques " + "est\U{E1}veis " + "na ")
      + ("margem, " + "sem " + "inflex\U{F5}es ") + "relevantes."

  lemma GoldReservesSingle()
    ensures '\n' !in GoldReserves
  {
  }

  const GoldMacro: string :=
    ("- Macro: " + "DXY " + "lateral ") + ("e yields " + "dos " + "Treasuries ")
      + ("levemente " + "mais " + "altos, ") + ("limitando " + "altas no " + "ouro.")

  lemma GoldMacroSingle()
    ensures '\n' !in GoldMacro
  {
  }


  // ---------------------------------------------------------------- copper

  const CopperFlows: string :=
    ("- " + "CPER/JJC: " + "fluxos ") + ("ligeiramente " + "positivos; " + "busca ")
      + ("por " + "exposi\U{E7}\U{E3}o " + "ao ciclo ") + "industrial."

  lemma CopperFlowsSingle()
    ensures '\n' !in CopperFlows
  {
  }

  const CopperCftcEstimate: string :=
    ("- CFTC " + "(HG): " + "especuladores ")
      + ("com leve " + "alta na " + "posi\U{E7}\U{E3}o ")
      + ("l\U{ED}quida " + "comprada " + "(estimativa).")

  lemma CopperCftcEstimateSingle()
    ensures '\n' !in CopperCftcEstimate
  {
  }

  const CopperCftcSourced: string :=
    ("- CFTC " + "(HG): " + "aumento ")
      + ("marginal " + "na " + "posi\U{E7}\U{E3}o ")
      + ("l\U{ED}quida " + "comprada " + "(fonte: ") + "FRED/relatos)."

  lemma CopperCftcSourcedSingle()
    ensures '\n' !in CopperCftcSourced
  {
  }

  const CopperInventories: string :=
    ("- " + "Invent\U{E1}rios " + "LME/COMEX/SHFE: ")
      + ("n\U{ED}veis " + "moderados; " + "estoques ")
      + ("chineses " + "sob " + "observa\U{E7}\U{E3}o.")

  lemma CopperInventoriesSingle()
    ensures '\n' !in CopperInventories
  {
  }

  const CopperSupply: string :=
    ("- " + "Oferta: " + "minas e ")
      + ("fundi\U{E7}\U{F5}es " + "reportam " + "manuten\U{E7}\U{E3}o ")
      + ("e " + "gargalos " + "pontuais; ") + ("custo de " + "energia " + "impacta.")

  lemma CopperSupplySingle()
    ensures '\n' !in CopperSupply
  {
  }

  const CopperDemand: string :=
    ("- " + "Demanda " + "China/PMIs/Infra: ")
      + ("sinais " + "mistos; " + "impulsos ")
      + ("de " + "infraestrutura " + "sustentam ") + "consumo."

  lemma CopperDemandSingle()
    ensures '\n' !in CopperDemand
  {
  }

  const CopperDxy: string :=
    ("- DXY: " + "d\U{F3}lar " + "firme ") + ("pode " + "limitar " + "ralis de ")
      + ("commodities " + "denominadas " + "em USD.")

  lemma CopperDxySingle()
    ensures '\n' !in CopperDxy
  {
  }

  const CopperRates: string :=
    ("- " + "Treasuries/global " + "rates: ")
      + ("yields " + "est\U{E1}veis " + "a ") + ("levemente " + "mais " + "altos; ")
      + ("apetite " + "por " + "risco ") + "moderado."

  lemma CopperRatesSingle()
    ensures '\n' !in CopperRates
  {
  }

  const CopperResearch: string :=
    ("- " + "Research: " + "foco em ") + ("balan\U{E7}o " + "tight " + "2025+, ")
      + ("investimentos " + "em " + "transi\U{E7}\U{E3}o ")
      + ("energ\U{E9}tica " + "elevam " + "demanda.")

  lemma CopperResearchSingle()
    ensures '\n' !in CopperResearch
  {
  }


  // ---------------------------------------------------------------- silver

  const SilverFlows: string :=
    ("- " + "SLV/SIVR: " + "entradas ")
      + ("l\U{ED}quidas " + "moderadas; " + "sinal de ")
      + ("demanda " + "t\U{E1}tica " + "por ") + "prote\U{E7}\U{E3}o/ind\U{FA}stria."

  lemma SilverFlowsSingle()
    ensures '\n' !in SilverFlows
  {
  }

  const SilverCftcEstimate: string :=
    ("- CFTC " + "(SI): " + "leve ")
      + ("alta na " + "posi\U{E7}\U{E3}o " + "l\U{ED}quida ")
      + ("comprada " + "entre " + "especuladores ") + "(estimativa)."

  lemma SilverCftcEstimateSingle()
    ensures '\n' !in SilverCftcEstimate
  {
  }

  const SilverCftcSourced: string :=
    ("- CFTC " + "(SI): " + "aumento ")
      + ("marginal " + "da " + "posi\U{E7}\U{E3}o ")
      + ("l\U{ED}quida " + "comprada " + "(fonte: ") + "FRED/relatos)."

  lemma SilverCftcSourcedSingle()
    ensures '\n' !in SilverCftcSourced
  {
  }

  const SilverReserves: string :=
    ("- " + "LBMA/COMEX: " + "estoques ")
      + ("de prata " + "est\U{E1}veis, " + "sem ")
      + ("choques " + "relevantes " + "de ") + ("oferta " + "f\U{ED}sica.")

  lemma SilverReservesSingle()
    ensures '\n' !in SilverReserves
  {
  }

  const SilverSupply: string :=
    ("- " + "Oferta/Reciclagem: " + "produ\U{E7}\U{E3}o ")
      + ("est\U{E1}vel; " + "reciclagem " + "firme ")
      + ("com " + "pre\U{E7}os " + "recentes.")

  lemma SilverSupplySingle()
    ensures '\n' !in SilverSupply
  {
  }

  const SilverIndustry: string :=
    ("- " + "Ind\U{FA}stria/Fotovoltaico: " + "demanda ")
      + ("estrutural " + "positiva " + "com ")
      + ("expans\U{E3}o " + "de " + "pain\U{E9}is ") + "solares."

  lemma SilverIndustrySingle()
    ensures '\n' !in SilverIndustry
  {
  }

  const SilverDxy: string :=
    ("- DXY: " + "estabilidade " + "recente; ")
      + ("d\U{F3}lar " + "ainda " + "limita ") + ("movimentos " + "de alta.")

  lemma SilverDxySingle()
    ensures '\n' !in SilverDxy
  {
  }

  const SilverRates: string :=
    ("- " + "Treasuries: " + "yields ") + ("em leve " + "alta; " + "custo de ")
      + ("oportunidade " + "pesa na " + "ponta ") + "comprada."

  lemma SilverRatesSingle()
    ensures '\n' !in SilverRates
  {
  }

  const SilverResearch: string :=
    ("- " + "Research: " + "casas ") + ("indicam " + "assimetria " + "positiva ")
      + ("se " + "ind\U{FA}stria " + "acelerar; ")
      + ("ainda " + "cautela " + "no curto ") + "prazo."

  lemma SilverResearchSingle()
    ensures '\n' !in SilverResearch
  {
  }
}
