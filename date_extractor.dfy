/** `DateExtractor`: the start, end and issue dates of a policy. Each comes from labelled
    patterns tried in order, the first whose captured date parses deciding the value and the
    confidence. The start date falls back to the first plausible date of the whole text, the
    end date to the first plausible date after the start date; the issue date has no
    fallback. */
module DateExtractor {
  import opened Wrappers
  import opened Text
  import opened Regex
  import opened FieldExtractor
  import opened RegexPatterns
  import opened DecimalParse
  import opened Calendar

  /** The years the unlabelled searches accept; labelled dates are taken whatever their year. */
  const MinPlausibleYear: int := 1990
  const MaxPlausibleYear: int := 2050

  /** The confidence of the generic first-plausible-date search. */
  const GenericConfidence: real := 0.9

  /** The confidence of an end date found only as a later date than the start date. */
  const LaterDateConfidence: real := 0.75

  // ---------------------------------------------------------------- TryParseDate

  /** The separator normalisation: '.' and '-' both become '/'. */
  function NormalizeSeparators(s: string): (r: string)
    ensures |r| == |s|
    ensures forall i :: 0 <= i < |s| ==> r[i] == if IsDateSep(s[i]) then '/' else s[i]
  {
    ReplaceChar(ReplaceChar(s, '.', '/'), '-', '/')
  }

  /** How many digits a one-or-two-digit field ("d" or "M") reads at `i`: greedily, at most
      two. */
  function FieldWidth(t: string, i: nat): (n: nat)
    requires i <= |t|
    ensures n <= 2 && i + n <= |t|
    ensures forall j :: i <= j < i + n ==> IsDigit(t[j])
    ensures n < 2 && i + n < |t| ==> !IsDigit(t[i + n])
  {
    if i < |t| && IsDigit(t[i]) then (if i + 1 < |t| && IsDigit(t[i + 1]) then 2 else 1) else 0
  }

  /** The value of the one or two digits at `i`. */
  function FieldNumber(t: string, i: nat, n: nat): int
    requires 1 <= n <= 2 && i + n <= |t|
    requires forall j :: i <= j < i + n ==> IsDigit(t[j])
  {
    if n == 1 then DigitValue(t[i]) else 10 * DigitValue(t[i]) + DigitValue(t[i + 1])
  }

  /** The value of the four digits at `k` ("yyyy"). */
  function YearNumber(t: string, k: nat): int
    requires k + 4 <= |t|
    requires forall j :: k <= j < k + 4 ==> IsDigit(t[j])
  {
    1000 * DigitValue(t[k]) + 100 * DigitValue(t[k + 1]) + 10 * DigitValue(t[k + 2]) + DigitValue(t[k + 3])
  }

  /** `DateTime.TryParseExact(t, "d/M/yyyy", InvariantCulture, DateTimeStyles.None)`: one or
      two digits of day, '/', one or two digits of month, '/', exactly four digits of year,
      nothing before or after, and a day the calendar has. A one-or-two-digit field reads
      greedily, so a third digit where the separator belongs fails the parse. The formats
      tried next ("dd/MM/yyyy", "d/MM/yyyy", "dd/M/yyyy") accept only strings this one
      already accepts, with the same result. */
  function ParseExact(t: string): (r: Option<Date>)
    ensures r.Some? ==> IsValidDate(r.value)
  {
    var a := FieldWidth(t, 0);
    if !(1 <= a && a < |t| && t[a] == '/') then None
    else
      var j := a + 1;
      var b := FieldWidth(t, j);
      if !(1 <= b && j + b < |t| && t[j + b] == '/') then None
      else
        var k := j + b + 1;
        if !(|t| == k + 4 && IsDigit(t[k]) && IsDigit(t[k + 1]) && IsDigit(t[k + 2]) && IsDigit(t[k + 3])) then None
        else
          var d := Date(YearNumber(t, k), FieldNumber(t, j, b), FieldNumber(t, 0, a));
          if IsValidDate(d) then Some(d) else None
  }

  /** `TryParseDate`: the date at midnight, or `None` where the parse fails. */
  function TryParseDate(s: string): (r: Option<Date>)
    ensures r.Some? ==> IsValidDate(r.value)
  {
    ParseExact(NormalizeSeparators(s))
  }

  /** `d` the way the extractor logs it, "dd/MM/yyyy", with `sep` between the fields. */
  function FormatDate(d: Date, sep: char): string
    requires IsValidDate(d)
  {
    assert Pow10(2) == 100 && Pow10(4) == 10000;
    PadDigits(d.day, 2) + [sep] + PadDigits(d.month, 2) + [sep] + PadDigits(d.year, 4)
  }

  /** The day `d` when the calendar has it. */
  function IfValid(d: Date): (r: Option<Date>)
    ensures r.Some? <==> IsValidDate(d)
    ensures r.Some? ==> r.value == d
  {
    if IsValidDate(d) then Some(d) else None
  }

  /** A day field of one or two digits, a month field of one or two digits and a year of
      four digits, with any of the three separators between them, parse to the day they
      spell exactly when the calendar has it. */
  lemma TryParseDateFields(dd: string, mm: string, yyyy: string, s1: char, s2: char)
    requires 1 <= |dd| <= 2 && 1 <= |mm| <= 2 && |yyyy| == 4
    requires AllDigits(dd) && AllDigits(mm) && AllDigits(yyyy)
    requires IsDateSep(s1) && IsDateSep(s2)
    ensures TryParseDate(dd + [s1] + mm + [s2] + yyyy)
            == IfValid(Date(DigitsValue(yyyy), DigitsValue(mm), DigitsValue(dd)))
  {
    TryParseDateDigits(dd, mm, yyyy, s1, s2);
    FieldValue(dd);
    FieldValue(mm);
    FieldValue(yyyy);
  }

  /** The same, with the field values read off digit by digit. */
  lemma TryParseDateDigits(dd: string, mm: string, yyyy: string, s1: char, s2: char)
    requires 1 <= |dd| <= 2 && 1 <= |mm| <= 2 && |yyyy| == 4
    requires AllDigits(dd) && AllDigits(mm) && AllDigits(yyyy)
    requires IsDateSep(s1) && IsDateSep(s2)
    ensures TryParseDate(dd + [s1] + mm + [s2] + yyyy)
            == IfValid(Date(YearNumber(yyyy, 0), FieldNumber(mm, 0, |mm|), FieldNumber(dd, 0, |dd|)))
  {
    NormalizeFields(dd, mm, yyyy, s1, s2);
    ParseExactFields(dd, mm, yyyy);
  }

  lemma NormalizeFields(dd: string, mm: string, yyyy: string, s1: char, s2: char)
    requires AllDigits(dd) && AllDigits(mm) && AllDigits(yyyy)
    requires IsDateSep(s1) && IsDateSep(s2)
    ensures NormalizeSeparators(dd + [s1] + mm + [s2] + yyyy) == dd + ['/'] + mm + ['/'] + yyyy
  {
    var s := dd + [s1] + mm + [s2] + yyyy;
    var t := dd + ['/'] + mm + ['/'] + yyyy;
    var j := |dd| + 1;
    var k := j + |mm| + 1;
    forall i | 0 <= i < |s| ensures NormalizeSeparators(s)[i] == t[i] {
      if i < |dd| {
        assert s[i] == dd[i] == t[i];
      } else if j <= i < j + |mm| {
        assert s[i] == mm[i - j] == t[i];
      } else if k <= i {
        assert s[i] == yyyy[i - k] == t[i];
      }
    }
  }

  lemma ParseExactFields(dd: string, mm: string, yyyy: string)
    requires 1 <= |dd| <= 2 && 1 <= |mm| <= 2 && |yyyy| == 4
    requires AllDigits(dd) && AllDigits(mm) && AllDigits(yyyy)
    ensures ParseExact(dd + ['/'] + mm + ['/'] + yyyy)
            == IfValid(Date(YearNumber(yyyy, 0), FieldNumber(mm, 0, |mm|), FieldNumber(dd, 0, |dd|)))
  {
    var t := dd + ['/'] + mm + ['/'] + yyyy;
    var j := |dd| + 1;
    var k := j + |mm| + 1;
    assert forall i :: 0 <= i < |dd| ==> t[i] == dd[i];
    assert forall i :: 0 <= i < |mm| ==> t[j + i] == mm[i];
    assert forall i :: 0 <= i < 4 ==> t[k + i] == yyyy[i];
    assert t[|dd|] == '/' && t[j + |mm|] == '/';
    assert FieldWidth(t, 0) == |dd| && FieldWidth(t, j) == |mm|;
    assert FieldNumber(t, 0, |dd|) == FieldNumber(dd, 0, |dd|);
    assert FieldNumber(t, j, |mm|) == FieldNumber(mm, 0, |mm|);
    assert YearNumber(t, k) == YearNumber(yyyy, 0);
  }

  /** The value of a field of one, two or four digits is its number. */
  lemma FieldValue(ds: string)
    requires AllDigits(ds) && (|ds| == 1 || |ds| == 2 || |ds| == 4)
    ensures |ds| <= 2 ==> DigitsValue(ds) == FieldNumber(ds, 0, |ds|)
    ensures |ds| == 4 ==> DigitsValue(ds) == YearNumber(ds, 0)
  {
    if |ds| == 4 {
      assert ds[..3][..2] == ds[..2] && ds[..2][..1] == ds[..1];
      assert DigitsValue(ds[..1]) == DigitValue(ds[0]);
    } else if |ds| == 2 {
      assert DigitsValue(ds[..1]) == DigitValue(ds[0]);
    }
  }

  /** Whatever parses has the shape of a date token. */
  lemma TryParseDateShape(s: string)
    requires TryParseDate(s).Some?
    ensures IsDateToken(s)
  {
    var t := NormalizeSeparators(s);
    var a := FieldWidth(t, 0);
    var b := FieldWidth(t, a + 1);
    assert DateTokenShape(s, a, b);
  }

  /** Formatting a day and parsing it back gives the day again, whichever separator was
      used. */
  lemma FormatDateRoundTrip(d: Date, sep: char)
    requires IsValidDate(d) && IsDateSep(sep)
    ensures TryParseDate(FormatDate(d, sep)) == Some(d)
  {
    assert Pow10(2) == 100 && Pow10(4) == 10000;
    TryParseDateFields(PadDigits(d.day, 2), PadDigits(d.month, 2), PadDigits(d.year, 4), sep, sep);
  }

  /** 29 February parses in a leap year ... */
  lemma LeapDayExample(t: string)
    requires t == "29.02.2024"
    ensures TryParseDate(t) == Some(Date(2024, 2, 29))
  {
    assert t == t[..2] + [t[2]] + t[3..5] + [t[5]] + t[6..];
    TryParseDateDigits(t[..2], t[3..5], t[6..], t[2], t[5]);
  }

  /** ... and not in a common year. */
  lemma CommonYearExample(t: string)
    requires t == "29-02-2023"
    ensures TryParseDate(t) == None
  {
    assert t == t[..2] + [t[2]] + t[3..5] + [t[5]] + t[6..];
    TryParseDateDigits(t[..2], t[3..5], t[6..], t[2], t[5]);
  }

  // ---------------------------------------------------------------- the unlabelled searches

  /** The date each token parses to. */
  function ParsedDates(ts: seq<string>): (ds: seq<Option<Date>>)
    ensures |ds| == |ts|
    ensures forall i :: 0 <= i < |ts| ==> ds[i] == TryParseDate(ts[i])
  {
    seq(|ts|, i requires 0 <= i < |ts| => TryParseDate(ts[i]))
  }

  /** What the unlabelled searches take: a parsed date of a plausible year that, when
      `after` is given, falls after that day. */
  predicate Accepts(d: Option<Date>, after: Option<Date>) {
    && d.Some?
    && MinPlausibleYear <= d.value.year <= MaxPlausibleYear
    && (after.Some? ==> Before(after.value, d.value))
  }

  /** The position of the first accepted date from `i` on. */
  function FirstAcceptedFrom(ds: seq<Option<Date>>, i: nat, after: Option<Date>): (r: Option<nat>)
    decreases |ds| - i
    ensures r.Some? ==> i <= r.value < |ds| && Accepts(ds[r.value], after)
    ensures r.Some? ==> forall j :: i <= j < r.value ==> !Accepts(ds[j], after)
    ensures r.None? ==> forall j :: i <= j < |ds| ==> !Accepts(ds[j], after)
  {
    if i >= |ds| then None
    else if Accepts(ds[i], after) then Some(i)
    else FirstAcceptedFrom(ds, i + 1, after)
  }

  /** The first accepted date, with confidence `c`; nothing, with confidence 0, when no date
      is accepted. */
  function FirstAccepted(ds: seq<Option<Date>>, after: Option<Date>, c: real): (r: Extraction<Date>)
    requires 0.0 < c <= 1.0
    ensures WellScored(r)
    ensures r.value.Some? ==> r.confidence == c && Accepts(r.value, after)
    ensures r.value.None? <==> forall j :: 0 <= j < |ds| ==> !Accepts(ds[j], after)
  {
    match FirstAcceptedFrom(ds, 0, after)
    case Some(i) => Found(ds[i].value, c)
    case None => NotFound()
  }

  /** The date at `i` is the one taken when no earlier date is accepted. */
  lemma FirstAcceptedAt(ds: seq<Option<Date>>, after: Option<Date>, c: real, i: nat)
    requires 0.0 < c <= 1.0 && i < |ds| && Accepts(ds[i], after)
    requires forall j :: 0 <= j < i ==> !Accepts(ds[j], after)
    ensures FirstAccepted(ds, after, c) == Found(ds[i].value, c)
  {
  }

  /** What `Extract` computes: the first date token of the text that parses to a plausible
      year, with confidence 0.9. */
  function FirstPlausibleDate(text: string): (r: Extraction<Date>)
    ensures WellScored(r)
  {
    FirstAccepted(ParsedDates(DateMatches(text)), None, GenericConfidence)
  }

  /** `Extract`: the foreach over the date matches with its early return. */
  method Extract(text: string) returns (r: Extraction<Date>)
    ensures r == FirstPlausibleDate(text)
  {
    var matches := DateMatches(text);
    ghost var ds := ParsedDates(matches);
    if |matches| == 0 {
      return NotFound();
    }
    for i := 0 to |matches|
      invariant FirstAcceptedFrom(ds, i, None) == FirstAcceptedFrom(ds, 0, None)
    {
      var parsed := TryParseDate(matches[i]);
      assert parsed == ds[i];
      if parsed.Some? && MinPlausibleYear <= parsed.value.year <= MaxPlausibleYear {
        return Found(parsed.value, GenericConfidence);
      }
    }
    return NotFound();
  }

  /** What the end-date fallback computes: the first date token that parses to a day after
      `start` in a plausible year, with confidence 0.75. */
  function LaterPlausibleDate(text: string, start: Date): (r: Extraction<Date>)
    ensures WellScored(r)
  {
    FirstAccepted(ParsedDates(DateMatches(text)), Some(start), LaterDateConfidence)
  }

  /** The end-date fallback loop; `possibleEndDate > startDate` compares ticks. */
  method LaterDate(text: string, start: Date) returns (r: Extraction<Date>)
    requires IsValidDate(start)
    ensures r == LaterPlausibleDate(text, start)
  {
    var allDates := DateMatches(text);
    ghost var ds := ParsedDates(allDates);
    for i := 0 to |allDates|
      invariant FirstAcceptedFrom(ds, i, Some(start)) == FirstAcceptedFrom(ds, 0, Some(start))
    {
      var parsed := TryParseDate(allDates[i]);
      assert parsed == ds[i];
      if parsed.Some? {
        DayNumberOrder(start, parsed.value);
        if Ticks(parsed.value) > Ticks(start) && MinPlausibleYear <= parsed.value.year <= MaxPlausibleYear {
          return Found(parsed.value, LaterDateConfidence);
        }
      }
    }
    return NotFound();
  }

  /** A token before the plausible years is passed over: the search takes the next accepted
      date. */
  lemma ImplausibleYearSkipped(ds: seq<Option<Date>>, c: real)
    requires 0.0 < c <= 1.0 && |ds| >= 2
    requires ds[0].Some? && ds[0].value.year < MinPlausibleYear && Accepts(ds[1], None)
    ensures FirstAccepted(ds, None, c) == Found(ds[1].value, c)
  {
    FirstAcceptedAt(ds, None, c, 1);
  }

  /** "07/07/1899" is a date the parser accepts, in a year the generic search refuses. */
  lemma ImplausibleTokenExample(t: string)
    requires t == "07/07/1899"
    ensures TryParseDate(t) == Some(Date(1899, 7, 7))
    ensures !Accepts(TryParseDate(t), None)
  {
    assert t == t[..2] + [t[2]] + t[3..5] + [t[5]] + t[6..];
    TryParseDateDigits(t[..2], t[3..5], t[6..], t[2], t[5]);
  }

  // ---------------------------------------------------------------- the labelled chains

  /** The date in group `k` of the first match of `p`, when there is a match and the group
      parses. */
  function MatchedDate(e: Engine, p: Pattern, text: string, k: nat): (r: Option<Date>)
    ensures r.Some? ==> IsValidDate(r.value)
  {
    match First(e, p, text)
    case None => None
    case Some(m) => TryParseDate(Group(m, k))
  }

  /** `ExtractStartDate`: the first date of the combined "BAŞLANGIÇ-BİTİŞ TARİHİ" range
      (0.98), the start-date label (0.95), the start-date table column (0.90), and else the
      generic search. */
  function ExtractStartDate(e: Engine, text: string): (r: Extraction<Date>)
    ensures WellScored(r)
    ensures r.value.Some? ==> IsValidDate(r.value.value)
  {
    var hdi := MatchedDate(e, HdiCoverageRange, text, 1);
    if hdi.Some? then Found(hdi.value, 0.98)
    else
      var labelled := MatchedDate(e, StartDateLabel, text, 1);
      if labelled.Some? then Found(labelled.value, 0.95)
      else
        var table := MatchedDate(e, StartDateTable, text, 1);
        if table.Some? then Found(table.value, 0.90)
        else FirstPlausibleDate(text)
  }

  /** Nothing labelled as the start: the generic search decides. */
  predicate NoLabelledStart(e: Engine, text: string) {
    && MatchedDate(e, HdiCoverageRange, text, 1).None?
    && MatchedDate(e, StartDateLabel, text, 1).None?
    && MatchedDate(e, StartDateTable, text, 1).None?
  }

  /** `ExtractEndDate`: the second date of the combined range (0.98), the end-date label
      (0.95), the end-date table column (0.90); else, when a start date is found, the first
      plausible date after it (0.75); else nothing. */
  function ExtractEndDate(e: Engine, text: string): (r: Extraction<Date>)
    ensures WellScored(r)
    ensures r.value.Some? ==> IsValidDate(r.value.value)
  {
    var hdi := MatchedDate(e, HdiCoverageRange, text, 2);
    if hdi.Some? then Found(hdi.value, 0.98)
    else
      var labelled := MatchedDate(e, EndDateLabel, text, 1);
      if labelled.Some? then Found(labelled.value, 0.95)
      else
        var table := MatchedDate(e, EndDateTable, text, 1);
        if table.Some? then Found(table.value, 0.90)
        else
          var start := ExtractStartDate(e, text);
          if start.value.Some? then LaterPlausibleDate(text, start.value.value)
          else NotFound()
  }

  predicate NoLabelledEnd(e: Engine, text: string) {
    && MatchedDate(e, HdiCoverageRange, text, 2).None?
    && MatchedDate(e, EndDateLabel, text, 1).None?
    && MatchedDate(e, EndDateTable, text, 1).None?
  }

  /** `ExtractIssueDate`: the issue-date label (0.95), "Tanzim Tarihi" (0.90), Allianz's
      "<date> ... TARİHİNDE ... TANZİM" (0.95), Anadolu's "Düzenleme Tarihi" (0.95); no
      fallback. */
  function ExtractIssueDate(e: Engine, text: string): (r: Extraction<Date>)
    ensures WellScored(r)
    ensures r.value.Some? ==> IsValidDate(r.value.value)
  {
    var labelled := MatchedDate(e, IssueDateLabel, text, 1);
    if labelled.Some? then Found(labelled.value, 0.95)
    else
      var tanzim := MatchedDate(e, TanzimDate, text, 1);
      if tanzim.Some? then Found(tanzim.value, 0.90)
      else
        var allianz := MatchedDate(e, AllianzTanzim, text, 1);
        if allianz.Some? then Found(allianz.value, 0.95)
        else
          var anadolu := MatchedDate(e, AnadoluDuzenleme, text, 1);
          if anadolu.Some? then Found(anadolu.value, 0.95)
          else NotFound()
  }

  // ---------------------------------------------------------------- properties of the chains

  /** One match of the combined range gives both ends of the coverage with confidence 0.98,
      the start from its first date and the end from its second. */
  lemma CoverageRangeGivesBoth(e: Engine, text: string, m: Match, start: Date, end: Date)
    requires First(e, HdiCoverageRange, text) == Some(m)
    requires TryParseDate(Group(m, 1)) == Some(start) && TryParseDate(Group(m, 2)) == Some(end)
    ensures ExtractStartDate(e, text) == Found(start, 0.98)
    ensures ExtractEndDate(e, text) == Found(end, 0.98)
  {
  }

  /** A labelled start date is taken whatever its year, inside 1990..2050 or outside it: the
      plausible-year window applies only to the generic search. */
  lemma LabelledStartIgnoresWindow(e: Engine, text: string, d: Date)
    requires MatchedDate(e, HdiCoverageRange, text, 1).None?
    requires MatchedDate(e, StartDateLabel, text, 1) == Some(d)
    ensures ExtractStartDate(e, text) == Found(d, 0.95)
  {
  }

  /** Without a labelled start date, the start date is plausible or absent. */
  lemma StartDateFallback(e: Engine, text: string)
    requires NoLabelledStart(e, text)
    ensures ExtractStartDate(e, text) == FirstPlausibleDate(text)
    ensures var r := ExtractStartDate(e, text);
            r.value.Some? ==> r.confidence == GenericConfidence && MinPlausibleYear <= r.value.value.year <= MaxPlausibleYear
  {
  }

  /** Without a labelled end date, an end date is found only after a start date, falls after
      it, lies in a plausible year and carries confidence 0.75. */
  lemma EndDateFallback(e: Engine, text: string)
    requires NoLabelledEnd(e, text)
    ensures var r := ExtractEndDate(e, text);
            var s := ExtractStartDate(e, text);
            r.value.Some? ==> && s.value.Some? && Before(s.value.value, r.value.value)
                              && r.confidence == LaterDateConfidence
                              && MinPlausibleYear <= r.value.value.year <= MaxPlausibleYear
    ensures ExtractStartDate(e, text).value.None? ==> ExtractEndDate(e, text) == NotFound()
  {
  }

  /** A fallback end date is later than the start date in ticks, as `DateTime` compares
      them. */
  lemma FallbackEndAfterStart(e: Engine, text: string)
    requires NoLabelledEnd(e, text)
    requires ExtractEndDate(e, text).value.Some?
    ensures ExtractStartDate(e, text).value.Some?
    ensures Ticks(ExtractStartDate(e, text).value.value) < Ticks(ExtractEndDate(e, text).value.value)
  {
    EndDateFallback(e, text);
    DayNumberOrder(ExtractStartDate(e, text).value.value, ExtractEndDate(e, text).value.value);
  }

  /** The issue date has no generic fallback: when none of its four patterns yields a date,
      nothing is found, whatever other dates the text holds. */
  lemma IssueDateNoFallback(e: Engine, text: string)
    requires MatchedDate(e, IssueDateLabel, text, 1).None?
    requires MatchedDate(e, TanzimDate, text, 1).None?
    requires MatchedDate(e, AllianzTanzim, text, 1).None?
    requires MatchedDate(e, AnadoluDuzenleme, text, 1).None?
    ensures ExtractIssueDate(e, text) == NotFound()
  {
  }

  /** The start-date stages in order: the combined range (0.98), the label (0.95), the table
      column (0.90), each taken only when every earlier stage gives no date. */
  lemma StartDateStages(e: Engine, text: string)
    ensures var hdi := MatchedDate(e, HdiCoverageRange, text, 1);
            hdi.Some? ==> ExtractStartDate(e, text) == Found(hdi.value, 0.98)
    ensures var hdi := MatchedDate(e, HdiCoverageRange, text, 1);
            var labelled := MatchedDate(e, StartDateLabel, text, 1);
            hdi.None? && labelled.Some? ==> ExtractStartDate(e, text) == Found(labelled.value, 0.95)
    ensures var hdi := MatchedDate(e, HdiCoverageRange, text, 1);
            var labelled := MatchedDate(e, StartDateLabel, text, 1);
            var table := MatchedDate(e, StartDateTable, text, 1);
            hdi.None? && labelled.None? && table.Some? ==> ExtractStartDate(e, text) == Found(table.value, 0.90)
  {
  }

  /** The end-date stages in order: the combined range's second date (0.98), the label
      (0.95), the table column (0.90), each taken only when every earlier stage gives no
      date. */
  lemma EndDateStages(e: Engine, text: string)
    ensures var hdi := MatchedDate(e, HdiCoverageRange, text, 2);
            hdi.Some? ==> ExtractEndDate(e, text) == Found(hdi.value, 0.98)
    ensures var hdi := MatchedDate(e, HdiCoverageRange, text, 2);
            var labelled := MatchedDate(e, EndDateLabel, text, 1);
            hdi.None? && labelled.Some? ==> ExtractEndDate(e, text) == Found(labelled.value, 0.95)
    ensures var hdi := MatchedDate(e, HdiCoverageRange, text, 2);
            var labelled := MatchedDate(e, EndDateLabel, text, 1);
            var table := MatchedDate(e, EndDateTable, text, 1);
            hdi.None? && labelled.None? && table.Some? ==> ExtractEndDate(e, text) == Found(table.value, 0.90)
  {
  }

  /** The issue-date stages in order: the issue-date label (0.95), "Tanzim Tarihi" (0.90),
      Allianz's "TARİHİNDE ... TANZİM" (0.95) and Anadolu's "Düzenleme Tarihi" (0.95), each
      taken only when every earlier stage gives no date. */
  lemma IssueDateStages(e: Engine, text: string)
    ensures var labelled := MatchedDate(e, IssueDateLabel, text, 1);
            labelled.Some? ==> ExtractIssueDate(e, text) == Found(labelled.value, 0.95)
    ensures var labelled := MatchedDate(e, IssueDateLabel, text, 1);
            var tanzim := MatchedDate(e, TanzimDate, text, 1);
            labelled.None? && tanzim.Some? ==> ExtractIssueDate(e, text) == Found(tanzim.value, 0.90)
    ensures var labelled := MatchedDate(e, IssueDateLabel, text, 1);
            var tanzim := MatchedDate(e, TanzimDate, text, 1);
            var allianz := MatchedDate(e, AllianzTanzim, text, 1);
            labelled.None? && tanzim.None? && allianz.Some? ==> ExtractIssueDate(e, text) == Found(allianz.value, 0.95)
    ensures var labelled := MatchedDate(e, IssueDateLabel, text, 1);
            var tanzim := MatchedDate(e, TanzimDate, text, 1);
            var allianz := MatchedDate(e, AllianzTanzim, text, 1);
            var anadolu := MatchedDate(e, AnadoluDuzenleme, text, 1);
            labelled.None? && tanzim.None? && allianz.None? && anadolu.Some? ==>
              ExtractIssueDate(e, text) == Found(anadolu.value, 0.95)
  {
  }
}
