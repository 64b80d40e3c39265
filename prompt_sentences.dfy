/** The fixed text of the gold report's summary prompt and of its fallback
    answer, each piece with the fact that it holds no line break. Long
    sentences are written in short pieces: facts about the characters of
    one long string literal are far more expensive for the verifier than
    the same facts about a few short ones. */
module PromptSentences {

  const IntroStart: string :=
    ("Voc\U{EA} \U{E9} " + "um " + "analista ")
      + ("macro. " + "Resuma o " + "mercado ") + ("de OURO " + "em ")

  lemma IntroStartSingle()
    ensures '\n' !in IntroStart
  {
  }

  const IntroEnd: string :=
    (" de " + "forma " + "curta, ") + ("clara e " + "\U{FA}til " + "para ")
      + "Telegram."

  lemma IntroEndSingle()
    ensures '\n' !in IntroEnd
  {
  }

  const FormatLine: string :=
    ("Formato " + "com " + "t\U{ED}tulos ") + ("numerados: " + "1) " + "Mercado ")
      + ("2) D\U{F3}lar " + "(DXY) 3) " + "Reservas ")
      + ("4) COT " + "(se " + "houver) ") + ("5) " + "S\U{ED}ntese.")

  lemma FormatLineSingle()
    ensures '\n' !in FormatLine
  {
  }

  const StyleLine: string :=
    ("Sem " + "emojis, " + "sem ") + ("linguagem " + "promocional, " + "foque em ")
      + ("pontos " + "chave.")

  lemma StyleLineSingle()
    ensures '\n' !in StyleLine
  {
  }

  const MarketHeading: string :=
    "Dados de " + "mercado: "

  lemma MarketHeadingSingle()
    ensures '\n' !in MarketHeading
  {
  }

  const ItemSeparator: string :=
    " | "

  lemma ItemSeparatorSingle()
    ensures '\n' !in ItemSeparator
  {
  }

  const SpotLabel: string :=
    "XAUUSD " + "(spot): "

  lemma SpotLabelSingle()
    ensures '\n' !in SpotLabel
  {
  }

  const SpotUnit: string :=
    " USD/oz"

  lemma SpotUnitSingle()
    ensures '\n' !in SpotUnit
  {
  }

  const FuturesLabel: string :=
    "Futuro " + "GC=F: "

  lemma FuturesLabelSingle()
    ensures '\n' !in FuturesLabel
  {
  }

  const GldLabel: string :=
    "ETF GLD: "

  lemma GldLabelSingle()
    ensures '\n' !in GldLabel
  {
  }

  const IauLabel: string :=
    "ETF IAU: "

  lemma IauLabelSingle()
    ensures '\n' !in IauLabel
  {
  }

  const DxyLabel: string :=
    "DXY " + "(DTWEXBGS): "

  lemma DxyLabelSingle()
    ensures '\n' !in DxyLabel
  {
  }

  const DxyDateLabel: string :=
    " " + "(\U{FA}ltimo: "

  lemma DxyDateLabelSingle()
    ensures '\n' !in DxyDateLabel
  {
  }

  const ClosingParen: string :=
    ")"

  lemma ClosingParenSingle()
    ensures '\n' !in ClosingParen
  {
  }

  const DxyMissing: string :=
    "DXY: sem " + "dados " + "hoje."

  lemma DxyMissingSingle()
    ensures '\n' !in DxyMissing
  {
  }

  const TotalReservesLabel: string :=
    "Reservas " + "globais " + "(USD): "

  lemma TotalReservesLabelSingle()
    ensures '\n' !in TotalReservesLabel
  {
  }

  const YearLabel: string :=
    " (ano "

  lemma YearLabelSingle()
    ensures '\n' !in YearLabel
  {
  }

  const GoldReservesLabel: string :=
    "Reservas " + "em ouro " + "(USD): "

  lemma GoldReservesLabelSingle()
    ensures '\n' !in GoldReservesLabel
  {
  }

  const ReservesHeading: string :=
    "Reservas " + "(World " + "Bank): "

  lemma ReservesHeadingSingle()
    ensures '\n' !in ReservesHeading
  {
  }

  const ReservesMissing: string :=
    ("Reservas: " + "sem " + "dados ") + ("consistentes " + "no " + "momento.")

  lemma ReservesMissingSingle()
    ensures '\n' !in ReservesMissing
  {
  }

  const CotPartial: string :=
    "COT " + "(ouro): " + "dados " + "parciais."

  lemma CotPartialSingle()
    ensures '\n' !in CotPartial
  {
  }

  const CotMissing: string :=
    ("COT " + "(ouro): " + "sem ")
      + ("dados " + "dispon\U{ED}veis " + "gratuitamente ") + ("no " + "momento.")

  lemma CotMissingSingle()
    ensures '\n' !in CotMissing
  {
  }

  const Closing: string :=
    ("Finalize " + "com uma " + "s\U{ED}ntese ")
      + ("direta " + "(vi\U{E9}s, " + "riscos, ") + "drivers)."

  lemma ClosingSingle()
    ensures '\n' !in Closing
  {
  }

  const Placeholder: string :=
    ("N\U{E3}o foi " + "poss\U{ED}vel " + "gerar a ")
      + ("interpreta\U{E7}\U{E3}o " + "autom\U{E1}tica " + "agora. ")
      + ("Use as " + "m\U{E9}tricas " + "acima ") + ("como " + "base.")

  lemma PlaceholderSingle()
    ensures '\n' !in Placeholder
  {
  }
}
