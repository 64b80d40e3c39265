/** Calendar dates and the three ways the scripts print them: the
    Portuguese label "16 de outubro de 2026", the ISO 8601 calendar-date tag
    "2026-10-16" (`%Y-%m-%d`) and the Brazilian "16/10/2026" (`%d/%m/%Y`). */
module Dates {
  import opened Wrappers
  import opened Text

  datatype Date = Date(year: int, month: int, day: int)

  predicate IsLeapYear(y: int) {
    y % 4 == 0 && (y % 100 != 0 || y % 400 == 0)
  }

  function DaysInMonth(y: int, m: int): int
    requires 1 <= m <= 12
  {
    if m == 2 then (if IsLeapYear(y) then 29 else 28)
    else if m == 4 || m == 6 || m == 9 || m == 11 then 30
    else 31
  }

  /** A date Python's `datetime` can hold. */
  predicate Valid(d: Date) {
    1 <= d.year <= 9999 && 1 <= d.month <= 12 && 1 <= d.day <= DaysInMonth(d.year, d.month)
  }

  // ---------------------------------------------------------------- digits

  /** Two digits with a leading zero, as `%m` and `%d` print. */
  function Pad2(n: nat): (r: string)
    requires n < 100
    ensures |r| == 2 && AllDigits(r) && DigitsValue(r) == n
  {
    var r := [DigitChar(n / 10), DigitChar(n % 10)];
    assert r[..1] == [DigitChar(n / 10)] && r[..1][..0] == [];
    assert DigitsValue(r[..1]) == n / 10;
    r
  }

  lemma DigitsWithout(p: string, c: char)
    requires AllDigits(p) && !IsDigit(c)
    ensures c !in p
  {
  }

  /** Three numbers written with a one-character separator between them. */
  function Triple(a: string, b: string, c: string, sep: char): string {
    Join([sep], [a, b, c])
  }

  /** Reads `Triple` back: three non-empty digit runs and nothing else. */
  function ParseTriple(s: string, sep: char): Option<(nat, nat, nat)> {
    var parts := Split(s, sep);
    if |parts| == 3 && parts[0] != [] && parts[1] != [] && parts[2] != []
       && AllDigits(parts[0]) && AllDigits(parts[1]) && AllDigits(parts[2])
    then Some((DigitsValue(parts[0]), DigitsValue(parts[1]), DigitsValue(parts[2])))
    else None
  }

  lemma TripleRoundTrip(a: string, b: string, c: string, sep: char)
    requires a != [] && b != [] && c != [] && AllDigits(a) && AllDigits(b) && AllDigits(c)
    requires !IsDigit(sep)
    ensures ParseTriple(Triple(a, b, c, sep), sep) == Some((DigitsValue(a), DigitsValue(b), DigitsValue(c)))
  {
    DigitsWithout(a, sep);
    DigitsWithout(b, sep);
    DigitsWithout(c, sep);
    SplitJoin([a, b, c], sep);
  }

  // ---------------------------------------------------------------- ISO tag

  /** `strftime("%Y-%m-%d")`: month and day zero-padded; the year as glibc
      prints it, without padding. */
  function IsoTag(d: Date): string
    requires Valid(d)
  {
    Triple(NatToString(d.year), Pad2(d.month), Pad2(d.day), '-')
  }

  function ParseIsoTag(s: string): Option<Date> {
    match ParseTriple(s, '-')
    case None => None
    case Some((y, m, dd)) => if Valid(Date(y, m, dd)) then Some(Date(y, m, dd)) else None
  }

  lemma {:induction false} IsoTagRoundTrip(d: Date)
    requires Valid(d)
    ensures ParseIsoTag(IsoTag(d)) == Some(d)
  {
    TripleRoundTrip(NatToString(d.year), Pad2(d.month), Pad2(d.day), '-');
  }

  /** Two days share a tag only if they are the same day: a seal holding
      today's tag was written today. */
  lemma IsoTagInjective(a: Date, b: Date)
    requires Valid(a) && Valid(b)
    ensures IsoTag(a) == IsoTag(b) <==> a == b
  {
    if IsoTag(a) == IsoTag(b) {
      IsoTagRoundTrip(a);
      IsoTagRoundTrip(b);
    }
  }

  // ---------------------------------------------------------------- dd/mm/yyyy

  /** `strftime("%d/%m/%Y")`. */
  function SlashDate(d: Date): string
    requires Valid(d)
  {
    Triple(Pad2(d.day), Pad2(d.month), NatToString(d.year), '/')
  }

  function ParseSlashDate(s: string): Option<Date> {
    match ParseTriple(s, '/')
    case None => None
    case Some((dd, m, y)) => if Valid(Date(y, m, dd)) then Some(Date(y, m, dd)) else None
  }

  lemma {:induction false} SlashDateRoundTrip(d: Date)
    requires Valid(d)
    ensures ParseSlashDate(SlashDate(d)) == Some(d)
  {
    TripleRoundTrip(Pad2(d.day), Pad2(d.month), NatToString(d.year), '/');
  }

  // ---------------------------------------------------------------- Portuguese label

  const MonthNames: seq<string> :=
    ["janeiro", "fevereiro", "mar\U{E7}o", "abril", "maio", "junho",
     "julho", "agosto", "setembro", "outubro", "novembro", "dezembro"]

  /** `meses[month - 1]`. */
  function MonthName(m: int): string
    requires 1 <= m <= 12
  {
    MonthNames[m - 1]
  }

  /** What sits between the day and the year in a label. */
  function Middle(m: int): string
    requires 1 <= m <= 12
  {
    " de " + MonthName(m) + " de "
  }

  lemma MiddleDistinct(a: int, b: int)
    requires 1 <= a <= 12 && 1 <= b <= 12 && a != b
    ensures Middle(a) != Middle(b)
  {
    assert Middle(a)[4..|Middle(a)| - 4] == MonthName(a);
    assert Middle(b)[4..|Middle(b)| - 4] == MonthName(b);
  }

  /** `today_brt_str()`: "{day} de {month name} de {year}", the day not
      zero-padded. */
  function DateLabelPt(d: Date): string
    requires Valid(d)
  {
    NatToString(d.day) + Middle(d.month) + NatToString(d.year)
  }

  /** The first month from `m` on whose middle part is `mid`. */
  function MonthSearch(mid: string, m: int): (r: Option<int>)
    requires 1 <= m <= 13
    ensures r.Some? ==> m <= r.value <= 12 && Middle(r.value) == mid
    ensures r.None? ==> forall k :: m <= k <= 12 ==> Middle(k) != mid
    decreases 13 - m
  {
    if m == 13 then None
    else if Middle(m) == mid then Some(m)
    else MonthSearch(mid, m + 1)
  }

  /** Reads a label back: leading digits for the day, trailing digits for
      the year, and a month name between them. */
  function ParseDateLabelPt(s: string): Option<Date> {
    var dayDigits := LeadingDigits(s);
    var yearDigits := TrailingDigits(s);
    if |dayDigits| + |yearDigits| > |s| then None
    else
      match MonthSearch(s[|dayDigits|..|s| - |yearDigits|], 1)
      case None => None
      case Some(m) =>
        var d := Date(DigitsValue(yearDigits), m, DigitsValue(dayDigits));
        if Valid(d) then Some(d) else None
  }

  /** The label names its date unambiguously. */
  lemma DateLabelRoundTrip(d: Date)
    requires Valid(d)
    ensures ParseDateLabelPt(DateLabelPt(d)) == Some(d)
  {
    var day, mid, year := NatToString(d.day), Middle(d.month), NatToString(d.year);
    var s := DateLabelPt(d);
    assert s == day + (mid + year);
    LeadingDigitsOf(day, mid + year);
    assert s == (day + mid) + year;
    TrailingDigitsOf(day + mid, year);
    assert s[|day|..|s| - |year|] == mid;
    var found := MonthSearch(mid, 1);
    if found.Some? && found.value != d.month {
      MiddleDistinct(found.value, d.month);
    }
  }

  lemma DateLabelInjective(a: Date, b: Date)
    requires Valid(a) && Valid(b)
    ensures DateLabelPt(a) == DateLabelPt(b) <==> a == b
  {
    if DateLabelPt(a) == DateLabelPt(b) {
      DateLabelRoundTrip(a);
      DateLabelRoundTrip(b);
    }
  }
}
