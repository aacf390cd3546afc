/** `MoneyExtractor`: reading an amount written in the Turkish (1.234,56) or the
    international (1,234.56) convention, and the ordered stages that find the net premium,
    the gross premium and the expense tax in a policy text. */
module MoneyExtractor {
  import opened Wrappers
  import opened Text
  import opened Regex
  import opened FieldExtractor
  import opened RegexPatterns
  import opened DecimalParse

  // ---------------------------------------------------------------- TryParseMoney

  /** The Turkish convention is recognised when there is a ',' and the last ',' comes after
      the last '.'. */
  predicate IsTurkishFormat(u: string) {
    ',' in u && LastIndexOf(u, ',') > LastIndexOf(u, '.')
  }

  /** The string handed to `decimal.Parse`: in the Turkish convention the dots (thousands)
      are dropped and the comma becomes the decimal point; otherwise the commas (thousands)
      are dropped. Either way no ',' is left for the parser to read as a group separator. */
  function Normalize(u: string): (r: string)
    ensures ',' !in r
  {
    if IsTurkishFormat(u) then ReplaceChar(RemoveChar(u, '.'), ',', '.') else RemoveChar(u, ',')
  }

  /** What `TryParseMoney` computes: the amount, or `None` where it returns false. A leading
      '-' is taken off and the absolute value returned. */
  function ParseMoney(s: string): (r: Option<real>)
    ensures r.Some? ==> -MaxDecimal <= r.value <= MaxDecimal
    ensures r.Some? && StartsWith(Trim(s), "-") ==> r.value >= 0.0
  {
    ReadAmount(Trim(s))
  }

  /** The trimmed string: with a leading '-', the absolute value of what follows it. */
  function ReadAmount(t: string): (r: Option<real>)
    ensures r.Some? ==> -MaxDecimal <= r.value <= MaxDecimal
    ensures r.Some? && StartsWith(t, "-") ==> r.value >= 0.0
  {
    if StartsWith(t, "-") then AbsoluteValue(ParseDecimal(Normalize(Trim(t[1..]))))
    else ParseDecimal(Normalize(t))
  }

  /** `Math.Abs` on a parsed value. */
  function AbsoluteValue(v: Option<real>): (r: Option<real>)
    ensures v.None? <==> r.None?
    ensures r.Some? ==> r.value >= 0.0 && (r.value == v.value || r.value == -v.value)
  {
    match v
    case None => None
    case Some(x) => Some(if x < 0.0 then -x else x)
  }

  /** `TryParseMoney(moneyStr, out result)`: the string is rewritten step by step, then
      parsed; on failure the result stays 0. */
  method TryParseMoney(s: string) returns (ok: bool, result: real)
    ensures ok == ParseMoney(s).Some?
    ensures result == ParseMoney(s).GetOr(0.0)
  {
    result := 0.0;
    var moneyStr := Trim(s);
    var isNegative := StartsWith(moneyStr, "-");
    if isNegative {
      moneyStr := Trim(moneyStr[1..]);
    }
    var isTurkishFormat := ',' in moneyStr && LastIndexOf(moneyStr, ',') > LastIndexOf(moneyStr, '.');
    if isTurkishFormat {
      moneyStr := ReplaceChar(RemoveChar(moneyStr, '.'), ',', '.');
    } else {
      moneyStr := RemoveChar(moneyStr, ',');
    }
    var parsed := ParseDecimal(moneyStr);
    if parsed.None? {
      return false, result;
    }
    result := parsed.value;
    if isNegative && result < 0.0 {
      result := -result;
    }
    ok := true;
  }

  // ---------------------------------------------------------------- how amounts are written

  /** `n` with its digits grouped by threes and `sep` between the groups. */
  function Grouped(n: nat, sep: char): (g: string)
    ensures |g| > 0 && IsDigit(g[0]) && IsDigit(g[|g| - 1])
  {
    if n < 1000 then DecimalDigits(n)
    else
      var p := PadDigits(n % 1000, 3);
      var g := Grouped(n / 1000, sep) + [sep] + p;
      assert g[|g| - 1] == p[2];
      g
  }

  /** An amount of `n` lira and `c` kuruş as Turkish documents print it: "1.234,56". */
  function FormatTurkish(n: nat, c: nat): string
    requires c < 100
  {
    Grouped(n, '.') + "," + PadDigits(c, 2)
  }

  /** The same amount in the international convention: "1,234.56". */
  function FormatInternational(n: nat, c: nat): string
    requires c < 100
  {
    Grouped(n, ',') + "." + PadDigits(c, 2)
  }

  /** The value `n + c / 100` those strings stand for. */
  function Amount(n: nat, c: nat): real {
    n as real + c as real / 100.0
  }

  // ---------------------------------------------------------------- round trips

  /** A grouped number holds only digits and separators, and without the separators it is
      the digits of the number. */
  lemma {:induction false} GroupedDigits(n: nat, sep: char)
    requires !IsDigit(sep)
    ensures forall i :: 0 <= i < |Grouped(n, sep)| ==> IsDigit(Grouped(n, sep)[i]) || Grouped(n, sep)[i] == sep
    ensures var d := RemoveChar(Grouped(n, sep), sep); |d| > 0 && AllDigits(d) && DigitsValue(d) == n
    decreases n
  {
    if n < 1000 {
      RemoveAbsent(DecimalDigits(n), sep);
    } else {
      GroupedDigits(n / 1000, sep);
      var p := PadDigits(n % 1000, 3);
      GroupStep(Grouped(n / 1000, sep), p, sep);
      assert Pow10(3) == 1000;
    }
  }

  /** One more group of three digits after a separator. */
  lemma GroupStep(h: string, p: string, sep: char)
    requires !IsDigit(sep) && |p| == 3 && AllDigits(p)
    requires forall i :: 0 <= i < |h| ==> IsDigit(h[i]) || h[i] == sep
    requires var d := RemoveChar(h, sep); |d| > 0 && AllDigits(d)
    ensures var g := h + [sep] + p;
            forall i :: 0 <= i < |g| ==> IsDigit(g[i]) || g[i] == sep
    ensures var d := RemoveChar(h, sep);
            RemoveChar(h + [sep] + p, sep) == d + p && AllDigits(d + p)
            && DigitsValue(d + p) == DigitsValue(d) * Pow10(3) + DigitsValue(p)
  {
    GroupRemoved(h, p, sep);
    DigitsValueConcat(RemoveChar(h, sep), p);
  }

  lemma GroupRemoved(h: string, p: string, sep: char)
    requires !IsDigit(sep) && AllDigits(p)
    ensures RemoveChar(h + [sep] + p, sep) == RemoveChar(h, sep) + p
  {
    var hs := h + [sep];
    RemoveCharConcat(hs, p, sep);
    RemoveCharConcat(h, [sep], sep);
    assert RemoveChar([sep], sep) == [];
    assert RemoveChar(hs, sep) == RemoveChar(h, sep);
    assert sep !in p by {
      forall k | 0 <= k < |p| ensures p[k] != sep {
        assert IsDigit(p[k]);
      }
    }
    RemoveAbsent(p, sep);
  }

  /** The digits of `n`, a point, and the two digits of `c` parse to the amount. */
  lemma ParseAmountDigits(n: nat, c: nat, d: string, p: string)
    requires c < 100 && Amount(n, c) <= MaxDecimal
    requires |d| > 0 && AllDigits(d) && DigitsValue(d) == n
    requires p == PadDigits(c, 2)
    ensures ParseDecimal(d + "." + p) == Some(Amount(n, c))
  {
    assert Pow10(2) == 100;
    assert Magnitude(n, c, 2) == Amount(n, c);
    ParseFixedPoint(d, p);
  }

  /** A grouped number, a decimal mark and two digits: the string is its own trim, and it
      has no sign. */
  lemma FormattedTrim(g: string, point: char, p: string)
    requires |g| > 0 && IsDigit(g[0]) && |p| == 2 && AllDigits(p)
    ensures Trim(g + [point] + p) == g + [point] + p
  {
    var s := g + [point] + p;
    assert s[0] == g[0] && s[|s| - 1] == p[1];
    TrimIdentity(s);
  }

  lemma FormattedUnsigned(g: string, point: char, p: string)
    requires |g| > 0 && IsDigit(g[0])
    ensures !StartsWith(g + [point] + p, "-")
  {
    var s := g + [point] + p;
    assert s[0] == g[0];
    StartsWithChar(s, '-');
  }

  /** Its last decimal mark is the one after the grouped part. */
  lemma FormattedMarks(g: string, sep: char, point: char, p: string)
    requires |p| == 2 && AllDigits(p) && !IsDigit(point) && !IsDigit(sep) && sep != point
    requires forall i :: 0 <= i < |g| ==> IsDigit(g[i]) || g[i] == sep
    ensures LastIndexOf(g + [point] + p, point) == |g|
    ensures LastIndexOf(g + [point] + p, sep) < |g|
  {
    var s := g + [point] + p;
    assert s[|g|] == point;
    assert s[|g| + 1] == p[0] && s[|g| + 2] == p[1] && |s| == |g| + 3;
    LastIndexOfAt(s, point, |g|);
    LastIndexOfBefore(s, sep, |g|);
  }

  /** A string that is its own trim and has no leading '-' goes to the parser normalised
      and nothing else. */
  lemma ParseMoneyUnsigned(s: string)
    requires Trim(s) == s && !StartsWith(s, "-")
    ensures ParseMoney(s) == ParseDecimal(Normalize(s))
  {
  }

  lemma TurkishNormalize(g: string, p: string)
    requires AllDigits(p) && AllDigits(RemoveChar(g, '.')) && IsTurkishFormat(g + "," + p)
    requires forall i :: 0 <= i < |g| ==> IsDigit(g[i]) || g[i] == '.'
    ensures Normalize(g + "," + p) == RemoveChar(g, '.') + "." + p
  {
    RemoveDots(g, p);
    CommaToPoint(RemoveChar(g, '.'), p);
  }

  lemma RemoveDots(g: string, p: string)
    requires AllDigits(p)
    ensures RemoveChar(g + "," + p, '.') == RemoveChar(g, '.') + "," + p
  {
    RemoveCharConcat(g + ",", p, '.');
    RemoveCharConcat(g, ",", '.');
    RemoveAbsent(",", '.');
    RemoveAbsent(p, '.');
  }

  lemma CommaToPoint(d: string, p: string)
    requires AllDigits(d) && AllDigits(p)
    ensures ReplaceChar(d + "," + p, ',', '.') == d + "." + p
  {
    var r := ReplaceChar(d + "," + p, ',', '.');
    assert forall i :: 0 <= i < |r| ==> r[i] == (d + "." + p)[i];
  }

  lemma InternationalNormalize(g: string, p: string)
    requires AllDigits(p) && !IsTurkishFormat(g + "." + p)
    ensures Normalize(g + "." + p) == RemoveChar(g, ',') + "." + p
  {
    RemoveCharConcat(g + ".", p, ',');
    RemoveCharConcat(g, ".", ',');
    RemoveAbsent(".", ',');
    RemoveAbsent(p, ',');
  }

  /** "1.234,56" reads as 1234.56: a Turkish amount parses back to its value. */
  lemma ParseTurkishAmount(n: nat, c: nat)
    requires c < 100 && Amount(n, c) <= MaxDecimal
    ensures ParseMoney(FormatTurkish(n, c)) == Some(Amount(n, c))
  {
    TurkishUnsigned(n, c);
    TurkishNormalized(n, c);
    GroupedDigits(n, '.');
    ParseAmountDigits(n, c, RemoveChar(Grouped(n, '.'), '.'), PadDigits(c, 2));
  }

  lemma TurkishUnsigned(n: nat, c: nat)
    requires c < 100
    ensures ParseMoney(FormatTurkish(n, c)) == ParseDecimal(Normalize(FormatTurkish(n, c)))
  {
    var g := Grouped(n, '.');
    var p := PadDigits(c, 2);
    FormattedTrim(g, ',', p);
    FormattedUnsigned(g, ',', p);
    assert g + [','] + p == g + "," + p;
    ParseMoneyUnsigned(g + "," + p);
  }

  lemma TurkishNormalized(n: nat, c: nat)
    requires c < 100
    ensures Normalize(FormatTurkish(n, c)) == RemoveChar(Grouped(n, '.'), '.') + "." + PadDigits(c, 2)
  {
    var g := Grouped(n, '.');
    var p := PadDigits(c, 2);
    GroupedDigits(n, '.');
    FormattedMarks(g, '.', ',', p);
    assert g + [','] + p == g + "," + p;
    TurkishNormalize(g, p);
  }

  /** "1,234.56" reads as 1234.56: an international amount parses back to its value. */
  lemma ParseInternationalAmount(n: nat, c: nat)
    requires c < 100 && Amount(n, c) <= MaxDecimal
    ensures ParseMoney(FormatInternational(n, c)) == Some(Amount(n, c))
  {
    InternationalUnsigned(n, c);
    InternationalNormalized(n, c);
    GroupedDigits(n, ',');
    ParseAmountDigits(n, c, RemoveChar(Grouped(n, ','), ','), PadDigits(c, 2));
  }

  lemma InternationalUnsigned(n: nat, c: nat)
    requires c < 100
    ensures ParseMoney(FormatInternational(n, c)) == ParseDecimal(Normalize(FormatInternational(n, c)))
  {
    var g := Grouped(n, ',');
    var p := PadDigits(c, 2);
    FormattedTrim(g, '.', p);
    FormattedUnsigned(g, '.', p);
    assert g + ['.'] + p == g + "." + p;
    ParseMoneyUnsigned(g + "." + p);
  }

  lemma InternationalNormalized(n: nat, c: nat)
    requires c < 100
    ensures Normalize(FormatInternational(n, c)) == RemoveChar(Grouped(n, ','), ',') + "." + PadDigits(c, 2)
  {
    var g := Grouped(n, ',');
    var p := PadDigits(c, 2);
    GroupedDigits(n, ',');
    FormattedMarks(g, ',', '.', p);
    assert g + ['.'] + p == g + "." + p;
    InternationalNormalize(g, p);
  }

  /** A leading '-' is dropped: "-x" reads as x does, for an x that is its own trim and
      reads as a non-negative amount. */
  lemma ParseMoneyNegated(x: string)
    requires x != [] && Trim(x) == x && !StartsWith(x, "-")
    requires ParseMoney(x).Some? ==> ParseMoney(x).value >= 0.0
    ensures ParseMoney("-" + x) == ParseMoney(x)
  {
    NegatedTrim(x);
    var t := "-" + x;
    assert t[0] == '-' && t[1..] == x;
    StartsWithChar(t, '-');
    SignStripped(t, x);
    ParseMoneyUnsigned(x);
  }

  lemma NegatedTrim(x: string)
    requires x != [] && Trim(x) == x
    ensures Trim("-" + x) == "-" + x
  {
    var t := "-" + x;
    assert t[0] == '-' && t[|t| - 1] == x[|x| - 1];
    TrimIdentity(t);
  }

  lemma SignStripped(t: string, x: string)
    requires StartsWith(t, "-") && t[1..] == x && Trim(t) == t
    ensures ParseMoney(t) == AbsoluteValue(ParseDecimal(Normalize(Trim(x))))
  {
  }

  /** Text with no '-' never reads as a negative amount: whatever the capture group took,
      the digits, dots and commas of the money patterns come out at least 0. */
  lemma MoneyNonNegative(s: string)
    requires '-' !in s
    ensures ParseMoney(s).Some? ==> ParseMoney(s).value >= 0.0
  {
    TrimKeepsChars(s);
    var t := Trim(s);
    assert '-' !in t;
    StartsWithChar(t, '-');
    var r := Normalize(t);
    assert '-' !in r by {
      if IsTurkishFormat(t) {
        var d := RemoveChar(t, '.');
        assert '-' !in d;
        assert forall i :: 0 <= i < |r| ==> r[i] != '-';
      }
    }
    ParseDecimalNoMinus(r);
  }

  // ---------------------------------------------------------------- the source's examples

  /** "1.234,56" is read in the Turkish convention as 1234.56. */
  lemma TurkishExample()
    ensures ParseMoney("1.234,56") == Some(1234.56)
  {
    GroupedExamples();
    PadExamples();
    assert FormatTurkish(1234, 56) == "1.234,56";
    ParseTurkishAmount(1234, 56);
  }

  /** "12,50" is read as 12.5. */
  lemma ShortTurkishExample()
    ensures ParseMoney("12,50") == Some(12.5)
  {
    DigitsExamples();
    PadExamples();
    assert FormatTurkish(12, 50) == "12,50";
    ParseTurkishAmount(12, 50);
  }

  /** "1,234.56" is read in the international convention as 1234.56. */
  lemma InternationalExample()
    ensures ParseMoney("1,234.56") == Some(1234.56)
  {
    GroupedExamples();
    PadExamples();
    assert FormatInternational(1234, 56) == "1,234.56";
    ParseInternationalAmount(1234, 56);
  }

  /** "-500,00", a refund, is read as 500. */
  lemma NegativeExample(t: string)
    requires t == "-500,00"
    ensures ParseMoney(t) == Some(500.0)
  {
    var x := t[1..];
    assert x == "500,00" && t == "-" + x;
    FiveHundred(x);
    ParseMoneyNegated(x);
  }

  /** "5-" is read as -5: `decimal.Parse` accepts a trailing sign, and only a leading '-' is
      taken off, so a value that reads can be negative. */
  lemma TrailingMinusExample(t: string)
    requires t == "5-"
    ensures ParseMoney(t) == Some(-5.0)
  {
    assert t[0] == '5' && t[|t| - 1] == '-';
    TrimIdentity(t);
    StartsWithChar(t, '-');
    assert !IsTurkishFormat(t);
    assert RemoveChar(t, ',') == "5" + RemoveChar("-", ',');
    assert RemoveChar("-", ',') == "-" + RemoveChar([], ',');
    assert Normalize(t) == t;
    assert Run(t, 0, Digits) == 1 + Run(t, 1, Digits);
    assert Run(t, 1, Digits) == 0;
    assert DigitsAt(t, 0, 1) == 5 by {
      var ds := t[0..1];
      assert ds == "5" && ds[..0] == [];
      assert DigitsValue(ds) == DigitsValue([]) * 10 + DigitValue('5');
    }
    assert Trailer(t, 2, false) == Some(false);
    assert Trailer(t, 1, true) == Some(true);
  }

  lemma FiveHundred(x: string)
    requires x == "500,00"
    ensures x != [] && Trim(x) == x && !StartsWith(x, "-")
    ensures ParseMoney(x) == Some(500.0)
  {
    FiveHundredValue(x);
    assert x[0] == '5' && x[|x| - 1] == '0';
    TrimIdentity(x);
    StartsWithChar(x, '-');
  }

  lemma FiveHundredValue(x: string)
    requires x == "500,00"
    ensures ParseMoney(x) == Some(500.0)
  {
    DigitsExamples();
    PadExamples();
    assert FormatTurkish(500, 0) == x;
    ParseTurkishAmount(500, 0);
  }

  lemma PadExamples()
    ensures PadDigits(234, 3) == "234"
    ensures PadDigits(56, 2) == "56" && PadDigits(50, 2) == "50" && PadDigits(0, 2) == "00"
  {
    assert PadDigits(2, 1) == "2";
    assert PadDigits(23, 2) == "23";
    assert PadDigits(5, 1) == "5";
    assert PadDigits(0, 1) == "0";
  }

  lemma GroupedExamples()
    ensures Grouped(1234, '.') == "1.234" && Grouped(1234, ',') == "1,234"
  {
    GroupedExample('.');
    GroupedExample(',');
  }

  lemma GroupedExample(sep: char)
    ensures Grouped(1234, sep) == "1" + [sep] + "234"
  {
    GroupedThousands(1234, sep);
  }

  lemma GroupedThousands(n: nat, sep: char)
    requires n == 1234
    ensures Grouped(n, sep) == "1" + [sep] + "234"
  {
    assert n / 1000 == 1 && n % 1000 == 234;
    PadExamples();
    assert Grouped(1, sep) == DecimalDigits(1) == "1";
  }

  lemma DigitsExamples()
    ensures DecimalDigits(12) == "12" && DecimalDigits(500) == "500"
  {
    assert DecimalDigits(1) == "1";
    assert DecimalDigits(5) == "5";
    assert DecimalDigits(50) == "50";
  }

  /** The empty string is rejected, and the result stays 0. */
  lemma EmptyRejected()
    ensures ParseMoney("").None?
  {
    assert Normalize("") == "";
    ParseNeedsDigit("");
  }

  /** A lone "." is rejected. */
  lemma PointRejected()
    ensures ParseMoney(".").None?
  {
    TrimIdentity(".");
    StartsWithChar(".", '-');
    assert !IsTurkishFormat(".");
    RemoveAbsent(".", ',');
    ParseNeedsDigit(".");
  }

  /** "1.2.3", with two points, is rejected. */
  lemma TwoPointsRejected()
    ensures ParseMoney("1.2.3").None?
  {
    var s := "1.2.3";
    TwoPointsUnsigned(s);
    TwoPointsNormal(s);
    TwoPointsParse(s);
  }

  lemma TwoPointsUnsigned(s: string)
    requires s == "1.2.3"
    ensures ParseMoney(s) == ParseDecimal(Normalize(s))
  {
    assert s[0] == '1' && s[|s| - 1] == '3';
    TrimIdentity(s);
    StartsWithChar(s, '-');
    ParseMoneyUnsigned(s);
  }

  lemma TwoPointsNormal(s: string)
    requires s == "1.2.3"
    ensures Normalize(s) == s
  {
    assert ',' !in s;
    RemoveAbsent(s, ',');
  }

  lemma TwoPointsParse(s: string)
    requires s == "1.2.3"
    ensures ParseDecimal(s).None?
  {
    assert s[0] == '1' && s[1] == '.' && s[2] == '2' && s[3] == '.';
    assert WhiteRun(s, 0) == 0 && !IsSign(s[0]);
    assert Run(s, 1, Digits) == 0 && Run(s, 3, Digits) == 0;
    assert Run(s, 0, Digits) == 1 && Run(s, 2, Digits) == 1;
    assert Trailer(s, 3, true).None?;
  }

  // ---------------------------------------------------------------- the extraction stages

  /** Group `k` of a match, if there is one, read as an amount. */
  function MoneyOf(m: Option<Match>, k: nat): Option<real> {
    match m
    case None => None
    case Some(x) => ParseMoney(Group(x, k))
  }

  /** Group 1 of the first match of `p`, read as an amount. */
  function FirstMoney(e: Engine, p: Pattern, text: string): Option<real> {
    MoneyOf(First(e, p, text), 1)
  }

  /** `ExtractByKeyword(text, keyword)` read as an amount. */
  function KeywordMoney(text: string, keyword: string): Option<real> {
    match ExtractByKeyword(text, keyword, DefaultMaxDistance)
    case None => None
    case Some(v) => ParseMoney(v)
  }

  /** `text.ToUpper().Contains("AXA")`. */
  predicate IsAxa(text: string) {
    Contains(ToUpper(text), "AXA")
  }

  /** What stage `i` of `ExtractNetPremium` finds, the stages numbered in the order they are
      tried. */
  function NetPremiumStage(e: Engine, text: string, i: nat): Option<real> {
    if i == 0 then FirstMoney(e, NeovaNetKatki, text)
    else if i == 1 then (if IsAxa(text) then MoneyOf(Last(e, AxaNetPrim, text), 1) else None)
    else if i == 2 then FirstMoney(e, VergiOncesiTable, text)
    else if i == 3 then FirstMoney(e, VergiOncesi, text)
    else if i == 4 then FirstMoney(e, NetPremiumLabel, text)
    else if i == 5 then FirstMoney(e, NetColon, text)
    else KeywordMoney(text, "Net Prim")
  }

  /** What the seven stages find. */
  function NetPremiumValues(e: Engine, text: string): (vs: seq<Option<real>>)
    ensures |vs| == 7
    ensures forall i :: 0 <= i < 7 ==> vs[i] == NetPremiumStage(e, text, i)
  {
    seq(7, i requires 0 <= i => NetPremiumStage(e, text, i))
  }

  /** The confidence stage `i` reports. */
  function NetPremiumConfidence(i: nat): (c: real)
    ensures 0.0 < c <= 1.0
  {
    if i == 1 then 0.98 else if i == 5 then 0.90 else if i == 6 then 0.85 else 0.95
  }

  function NetPremiumConfidences(): (cs: seq<real>)
    ensures |cs| == 7 && forall i :: 0 <= i < 7 ==> cs[i] == NetPremiumConfidence(i)
  {
    seq(7, i requires 0 <= i => NetPremiumConfidence(i))
  }

  /** `ExtractNetPremium`: the first stage whose capture reads as an amount. */
  function ExtractNetPremium(e: Engine, text: string): (r: Extraction<real>)
    ensures WellScored(r)
  {
    FirstFound(Chain(NetPremiumValues(e, text), NetPremiumConfidences()))
  }

  /** The endorsement stage: the third of the three amounts after "Peşin", when it reads as an
      amount above 0. */
  function ZeyilMoney(e: Engine, text: string): Option<real> {
    var v := MoneyOf(First(e, ZeyilPesin, text), 3);
    if v.Some? && v.value > 0.0 then v else None
  }

  /** The stage finds a value exactly when the first "Peşin" row's third amount reads and is
      above 0, and then it is that amount. */
  lemma ZeyilThirdAmount(e: Engine, text: string)
    ensures var ms := e(ZeyilPesin, text);
            ZeyilMoney(e, text).Some? <==> |ms| > 0 && ParseMoney(Group(ms[0], 3)).Some? && ParseMoney(Group(ms[0], 3)).value > 0.0
    ensures ZeyilMoney(e, text).Some? ==> ZeyilMoney(e, text) == ParseMoney(Group(e(ZeyilPesin, text)[0], 3))
  {
  }

  /** What group `k` of each match reads as, in match order. */
  function Readings(ms: seq<Match>, k: nat): (vs: seq<Option<real>>)
    ensures |vs| == |ms|
    ensures forall i :: 0 <= i < |ms| ==> vs[i] == ParseMoney(Group(ms[i], k))
  {
    seq(|ms|, i requires 0 <= i < |ms| => ParseMoney(Group(ms[i], k)))
  }

  /** What the `maxValue` loop of the Allianz stage leaves: starting from 0, each amount that
      reads and exceeds the value so far replaces it. */
  function MaxAmount(vs: seq<Option<real>>): real {
    if vs == [] then 0.0
    else
      var prev := MaxAmount(vs[..|vs| - 1]);
      var v := vs[|vs| - 1];
      if v.Some? && v.value > prev then v.value else prev
  }

  /** The loop leaves the largest amount that reads, or 0 when none reads above 0. */
  lemma {:induction false} MaxAmountIsMax(vs: seq<Option<real>>)
    ensures MaxAmount(vs) >= 0.0
    ensures forall i :: 0 <= i < |vs| && vs[i].Some? ==> vs[i].value <= MaxAmount(vs)
    ensures MaxAmount(vs) == 0.0 || exists i :: 0 <= i < |vs| && vs[i] == Some(MaxAmount(vs))
  {
    if vs != [] {
      var init := vs[..|vs| - 1];
      MaxAmountIsMax(init);
      assert forall i :: 0 <= i < |init| ==> vs[i] == init[i];
      if MaxAmount(vs) != 0.0 && MaxAmount(vs) == MaxAmount(init) {
        var i :| 0 <= i < |init| && init[i] == Some(MaxAmount(init));
        assert vs[i] == Some(MaxAmount(vs));
      }
    }
  }

  /** The Allianz loop over the "<number> TL" matches of the region. */
  method MaxTlAmount(ms: seq<Match>) returns (maxValue: real)
    ensures maxValue == MaxAmount(Readings(ms, 1))
  {
    ghost var vs := Readings(ms, 1);
    maxValue := 0.0;
    for i := 0 to |ms|
      invariant maxValue == MaxAmount(vs[..i])
    {
      assert vs[..i + 1][..i] == vs[..i];
      var ok, moneyValue := TryParseMoney(Group(ms[i], 1));
      if ok && moneyValue > maxValue {
        maxValue := moneyValue;
      }
    }
    assert vs[..|ms|] == vs;
  }

  /** The Allianz stage: skipped when either "Ödenecek Prim <amount>" pattern matched; otherwise
      the largest "<number> TL" amount in the region after the first "Ödenecek Prim", if it
      exceeds 100. */
  function AllianzAmount(e: Engine, text: string): Option<real> {
    if First(e, OdenecekPrimAmount, text).Some? || First(e, OdenecekPrimNextLine, text).Some? then None
    else
      match First(e, AllianzOdenecekRegion, text)
      case None => None
      case Some(region) =>
        var mx := MaxAmount(Readings(e(TlAmount, region.value), 1));
        if mx > 100.0 then Some(mx) else None
  }

  /** The amounts of the region after the first "Ödenecek Prim". */
  function RegionAmounts(e: Engine, text: string): seq<Option<real>>
    requires |e(AllianzOdenecekRegion, text)| > 0
  {
    Readings(e(TlAmount, e(AllianzOdenecekRegion, text)[0].value), 1)
  }

  /** The stage runs only when neither "Ödenecek Prim <amount>" pattern matched, and then it
      returns the largest amount of the region precisely when that exceeds 100. */
  lemma AllianzMaximum(e: Engine, text: string)
    ensures AllianzAmount(e, text).Some? ==>
              NoMatch(e, OdenecekPrimAmount, text) && NoMatch(e, OdenecekPrimNextLine, text) && |e(AllianzOdenecekRegion, text)| > 0
    ensures AllianzAmount(e, text).Some? ==>
              var r := AllianzAmount(e, text).value;
              var vs := RegionAmounts(e, text);
              && r > 100.0
              && (forall i :: 0 <= i < |vs| && vs[i].Some? ==> vs[i].value <= r)
              && (exists i :: 0 <= i < |vs| && vs[i] == Some(r))
    ensures AllianzAmount(e, text).None? && NoMatch(e, OdenecekPrimAmount, text) && NoMatch(e, OdenecekPrimNextLine, text)
            && |e(AllianzOdenecekRegion, text)| > 0 ==>
              var vs := RegionAmounts(e, text);
              forall i :: 0 <= i < |vs| && vs[i].Some? ==> vs[i].value <= 100.0
  {
    if |e(AllianzOdenecekRegion, text)| > 0 {
      MaxAmountIsMax(RegionAmounts(e, text));
    }
  }

  /** The keywords of the proximity fallback, in the order they are tried. */
  const GrossKeywords: seq<string> :=
    ["Brüt Prim", "BRÜT PRİM", "Ödenecek Prim", "ÖDENECEK PRİM", "Ödenecek Tutar", "Ödenecek"]

  /** What `ExtractByKeyword` finds after each keyword. */
  function KeywordValues(text: string, keywords: seq<string>): (vs: seq<Option<string>>)
    ensures |vs| == |keywords|
    ensures forall i :: 0 <= i < |keywords| ==> vs[i] == ExtractByKeyword(text, keywords[i], DefaultMaxDistance)
  {
    seq(|keywords|, i requires 0 <= i < |keywords| => ExtractByKeyword(text, keywords[i], DefaultMaxDistance))
  }

  /** The `??=` chain over the keywords, then one reading of the value it settles on: a
      value that does not read ends the stage, and no later keyword is tried. */
  function GrossKeywordMoney(text: string): (r: Option<real>)
    ensures var vs := KeywordValues(text, GrossKeywords);
            r.Some? ==> exists k :: 0 <= k < |vs| && vs[k].Some? && r == ParseMoney(vs[k].value)
                                    && forall j :: 0 <= j < k ==> vs[j].None?
  {
    var vs := KeywordValues(text, GrossKeywords);
    match FirstSome(vs, 0)
    case None => None
    case Some(k) => ParseMoney(vs[k].value)
  }

  /** What stage `i` of `ExtractGrossPremium` before the AXA block finds. */
  function EarlyGrossStage(e: Engine, text: string, i: nat): Option<real> {
    if i == 0 then FirstMoney(e, QuickHayatTable, text)
    else if i == 1 then FirstMoney(e, QuickHayatReverse, text)
    else if i == 2 then FirstMoney(e, QuickHayatPrimTutari, text)
    else if i == 3 then FirstMoney(e, ToplamPrim, text)
    else if i == 4 then FirstMoney(e, NeovaBrutKatki, text)
    else if i == 5 then ZeyilMoney(e, text)
    else FirstMoney(e, PolicePrimi, text)
  }

  function EarlyGrossValues(e: Engine, text: string): (vs: seq<Option<real>>)
    ensures |vs| == 7
    ensures forall i :: 0 <= i < 7 ==> vs[i] == EarlyGrossStage(e, text, i)
  {
    seq(7, i requires 0 <= i => EarlyGrossStage(e, text, i))
  }

  function EarlyGrossConfidence(i: nat): (c: real)
    ensures 0.0 < c <= 1.0
  {
    if i == 1 then 0.98 else if i == 5 then 0.90 else 0.95
  }

  function EarlyGrossConfidences(): (cs: seq<real>)
    ensures |cs| == 7 && forall i :: 0 <= i < 7 ==> cs[i] == EarlyGrossConfidence(i)
  {
    seq(7, i requires 0 <= i => EarlyGrossConfidence(i))
  }

  /** What stage `i` after the AXA block finds, as written: the last one is the keyword
      chain, or for AXA text the specific AXA pattern. */
  function LateGrossStage(e: Engine, text: string, isAxa: bool, i: nat): Option<real> {
    if i == 0 then FirstMoney(e, OdenecekPrimAmount, text)
    else if i == 1 then FirstMoney(e, OdenecekPrimNextLine, text)
    else if i == 2 then FirstMoney(e, OdenecekTutar, text)
    else if i == 3 then FirstMoney(e, GrossPremiumLabel, text)
    else if i == 4 then FirstMoney(e, OdenecekColon, text)
    else if i == 5 then AllianzAmount(e, text)
    else if !isAxa then GrossKeywordMoney(text) else FirstMoney(e, AxaSpecificOdenecek, text)
  }

  function LateGrossValues(e: Engine, text: string, isAxa: bool): (vs: seq<Option<real>>)
    ensures |vs| == 7
    ensures forall i :: 0 <= i < 7 ==> vs[i] == LateGrossStage(e, text, isAxa, i)
  {
    seq(7, i requires 0 <= i => LateGrossStage(e, text, isAxa, i))
  }

  function LateGrossConfidence(isAxa: bool, i: nat): (c: real)
    ensures 0.0 < c <= 1.0
  {
    if i == 4 || i == 5 then 0.90 else if i == 6 then (if !isAxa then 0.85 else 0.92) else 0.95
  }

  function LateGrossConfidences(isAxa: bool): (cs: seq<real>)
    ensures |cs| == 7 && forall i :: 0 <= i < 7 ==> cs[i] == LateGrossConfidence(isAxa, i)
  {
    seq(7, i requires 0 <= i => LateGrossConfidence(isAxa, i))
  }

  /** The AXA block's value: group 1 of the last case-sensitive "Ödenecek Prim" match. */
  function AxaGrossValue(e: Engine, text: string): Option<real> {
    MoneyOf(Last(e, AxaOdenecekPrim, text), 1)
  }

  function GrossValues(e: Engine, text: string): (vs: seq<Option<real>>)
    ensures |vs| == |GrossConfidences(IsAxa(text))|
  {
    if IsAxa(text) then EarlyGrossValues(e, text) + [AxaGrossValue(e, text)]
    else EarlyGrossValues(e, text) + LateGrossValues(e, text, IsAxa(text))
  }

  function GrossConfidences(isAxa: bool): (cs: seq<real>)
    ensures forall i :: 0 <= i < |cs| ==> 0.0 < cs[i] <= 1.0
  {
    if isAxa then EarlyGrossConfidences() + [0.98] else EarlyGrossConfidences() + LateGrossConfidences(isAxa)
  }

  /** `ExtractGrossPremium`. */
  function ExtractGrossPremium(e: Engine, text: string): (r: Extraction<real>)
    ensures WellScored(r)
  {
    FirstFound(Chain(GrossValues(e, text), GrossConfidences(IsAxa(text))))
  }

  /** `ExtractTax`: the capture of the tax pattern, read as an amount, with confidence 0.9. */
  function ExtractTax(e: Engine, text: string): (r: Extraction<real>)
    ensures WellScored(r)
    ensures r.value.Some? <==> |e(TaxLabel, text)| > 0 && ParseMoney(Group(e(TaxLabel, text)[0], 1)).Some?
    ensures r.value.Some? ==> r.value == ParseMoney(Group(e(TaxLabel, text)[0], 1)) && r.confidence == 0.9
  {
    match FirstMoney(e, TaxLabel, text)
    case None => NotFound()
    case Some(v) => Found(v, 0.9)
  }

  /** What each token reads as, in order. */
  function TokenReadings(ts: seq<string>): (vs: seq<Option<real>>)
    ensures |vs| == |ts|
    ensures forall i :: 0 <= i < |ts| ==> vs[i] == ParseMoney(ts[i])
  {
    seq(|ts|, i requires 0 <= i < |ts| => ParseMoney(ts[i]))
  }

  /** What `Extract` finds among the matches `ts`: the first whose value reads as an amount,
      with confidence 0.7; nothing when none reads. */
  function FirstAmount(ts: seq<string>): (r: Extraction<real>)
    ensures WellScored(r)
    ensures var vs := TokenReadings(ts);
            r.value.Some? ==> (r.confidence == 0.7 &&
                               exists i :: 0 <= i < |vs| && r.value == vs[i] && forall j :: 0 <= j < i ==> vs[j].None?)
    ensures var vs := TokenReadings(ts);
            r.value.None? <==> forall j :: 0 <= j < |vs| ==> vs[j].None?
  {
    var vs := TokenReadings(ts);
    match FirstSome(vs, 0)
    case None => NotFound()
    case Some(i) => Found(vs[i].value, 0.7)
  }

  /** `Extract`: the `MoneyPattern` matches of the text, searched by `FirstAmountOf`. */
  method Extract(text: string) returns (r: Extraction<real>)
    ensures r == FirstAmount(MoneyMatches(text))
  {
    var matches := MoneyMatches(text);
    r := FirstAmountOf(matches);
  }

  /** The `foreach` of `Extract`: it returns at the first match that reads. */
  method FirstAmountOf(matches: seq<string>) returns (r: Extraction<real>)
    ensures r == FirstAmount(matches)
  {
    ghost var vs := TokenReadings(matches);
    var k := 0;
    while k < |matches|
      invariant k <= |matches|
      invariant FirstSome(vs, 0) == FirstSome(vs, k)
    {
      var ok, result := TryParseMoney(matches[k]);
      if ok {
        assert FirstSome(vs, k) == Some(k);
        return Found(result, 0.7);
      }
      k := k + 1;
    }
    r := NotFound();
  }

  /** The amount `Extract` returns is the reading of a money token of the text. */
  lemma AmountFromMoneyToken(text: string)
    ensures var ms := MoneyMatches(text);
            var r := FirstAmount(ms);
            r.value.Some? ==> exists i :: 0 <= i < |ms| && IsMoneyToken(ms[i]) && ParseMoney(ms[i]) == r.value
  {
    MoneyMatchesShape(text, 0);
    var ms := MoneyMatches(text);
    var r := FirstAmount(ms);
    if r.value.Some? {
      var i :| 0 <= i < |ms| && r.value == TokenReadings(ms)[i] && forall j :: 0 <= j < i ==> TokenReadings(ms)[j].None?;
      assert ms[i] in ms;
    }
  }

  // ---------------------------------------------------------------- properties of the stages

  /** On AXA text where the Neova pattern finds nothing, the last "Net Prim" match decides:
      when its amount reads, it is the net premium, with confidence 0.98, whatever the
      earlier matches hold. */
  lemma NetPremiumAxaLastMatch(e: Engine, text: string)
    requires IsAxa(text) && FirstMoney(e, NeovaNetKatki, text).None?
    requires |e(AxaNetPrim, text)| > 0
    requires ParseMoney(Group(e(AxaNetPrim, text)[|e(AxaNetPrim, text)| - 1], 1)).Some?
    ensures ExtractNetPremium(e, text)
            == Found(ParseMoney(Group(e(AxaNetPrim, text)[|e(AxaNetPrim, text)| - 1], 1)).value, 0.98)
  {
    var vs := NetPremiumValues(e, text);
    assert vs[0] == None;
    assert vs[1] == MoneyOf(Last(e, AxaNetPrim, text), 1);
    ChainHit(vs, NetPremiumConfidences(), 1);
  }

  /** The first stage that finds a value decides the net premium, with that stage's
      confidence; when no stage finds one the result is nothing, with confidence 0. */
  lemma NetPremiumFirstHit(e: Engine, text: string, i: nat)
    requires i < 7 && NetPremiumValues(e, text)[i].Some?
    requires forall j :: 0 <= j < i ==> NetPremiumValues(e, text)[j].None?
    ensures ExtractNetPremium(e, text) == Found(NetPremiumValues(e, text)[i].value, NetPremiumConfidence(i))
  {
    ChainHit(NetPremiumValues(e, text), NetPremiumConfidences(), i);
  }

  lemma NetPremiumNone(e: Engine, text: string)
    requires forall j :: 0 <= j < 7 ==> NetPremiumValues(e, text)[j].None?
    ensures ExtractNetPremium(e, text) == NotFound()
  {
    ChainMiss(NetPremiumValues(e, text), NetPremiumConfidences());
  }

  /** On text that does not mention AXA, the AXA stage finds nothing. */
  lemma NetPremiumAxaOnly(e: Engine, text: string)
    requires !IsAxa(text)
    ensures NetPremiumValues(e, text)[1].None?
  {
  }

  /** On AXA text that gets past the first seven stages, the gross premium is the amount of
      the last case-sensitive "Ödenecek Prim" match with confidence 0.98, or nothing when
      there is no such match or its amount does not read: no later stage is tried. */
  lemma GrossPremiumAxaLastMatch(e: Engine, text: string)
    requires IsAxa(text)
    requires forall j :: 0 <= j < 7 ==> EarlyGrossValues(e, text)[j].None?
    ensures var ms := e(AxaOdenecekPrim, text);
            ExtractGrossPremium(e, text)
            == if |ms| == 0 || ParseMoney(Group(ms[|ms| - 1], 1)).None? then NotFound()
               else Found(ParseMoney(Group(ms[|ms| - 1], 1)).value, 0.98)
  {
    var early := EarlyGrossValues(e, text);
    var v := AxaGrossValue(e, text);
    ChainMiss(early, EarlyGrossConfidences());
    ChainThen(early, [v], EarlyGrossConfidences(), [0.98]);
    if v.Some? {
      ChainHit([v], [0.98], 0);
    } else {
      ChainMiss([v], [0.98]);
    }
  }

  /** The first of the stages before the AXA block that finds a value decides the gross
      premium, with that stage's confidence, on any text: neither the AXA block nor a later
      stage is consulted. Stage 5 is the endorsement stage of `ZeyilThirdAmount`. */
  lemma GrossPremiumEarlyHit(e: Engine, text: string, i: nat)
    requires i < 7 && EarlyGrossValues(e, text)[i].Some?
    requires forall j :: 0 <= j < i ==> EarlyGrossValues(e, text)[j].None?
    ensures ExtractGrossPremium(e, text) == Found(EarlyGrossValues(e, text)[i].value, EarlyGrossConfidence(i))
  {
    var early := EarlyGrossValues(e, text);
    ChainHit(early, EarlyGrossConfidences(), i);
    if IsAxa(text) {
      ChainThen(early, [AxaGrossValue(e, text)], EarlyGrossConfidences(), [0.98]);
    } else {
      ChainThen(early, LateGrossValues(e, text, false), EarlyGrossConfidences(), LateGrossConfidences(false));
    }
  }

  /** Two engines that differ only on the specific AXA pattern give the same gross premium:
      that stage's branch is taken only for AXA text, which never gets past the AXA block. */
  lemma SpecificAxaStageUnreachable(e1: Engine, e2: Engine, text: string)
    requires forall p, s :: p != AxaSpecificOdenecek ==> e1(p, s) == e2(p, s)
    ensures ExtractGrossPremium(e1, text) == ExtractGrossPremium(e2, text)
  {
    GrossStagesAgree(e1, e2, text);
  }

  lemma GrossStagesAgree(e1: Engine, e2: Engine, text: string)
    requires forall p, s :: p != AxaSpecificOdenecek ==> e1(p, s) == e2(p, s)
    ensures GrossValues(e1, text) == GrossValues(e2, text)
  {
    EarlyStagesAgree(e1, e2, text);
    if IsAxa(text) {
      AxaStageAgrees(e1, e2, text);
    } else {
      LateStagesAgree(e1, e2, text);
    }
  }

  lemma AxaStageAgrees(e1: Engine, e2: Engine, text: string)
    requires forall p, s :: p != AxaSpecificOdenecek ==> e1(p, s) == e2(p, s)
    ensures AxaGrossValue(e1, text) == AxaGrossValue(e2, text)
  {
    assert e1(AxaOdenecekPrim, text) == e2(AxaOdenecekPrim, text);
  }

  lemma EarlyStagesAgree(e1: Engine, e2: Engine, text: string)
    requires forall p, s :: p != AxaSpecificOdenecek ==> e1(p, s) == e2(p, s)
    ensures EarlyGrossValues(e1, text) == EarlyGrossValues(e2, text)
  {
    forall i: nat | i < 7 ensures EarlyGrossStage(e1, text, i) == EarlyGrossStage(e2, text, i) {
      EarlyStageAgrees(e1, e2, text, i);
    }
  }

  lemma LateStagesAgree(e1: Engine, e2: Engine, text: string)
    requires forall p, s :: p != AxaSpecificOdenecek ==> e1(p, s) == e2(p, s)
    ensures LateGrossValues(e1, text, false) == LateGrossValues(e2, text, false)
  {
    forall i: nat | i < 7 ensures LateGrossStage(e1, text, false, i) == LateGrossStage(e2, text, false, i) {
      LateStageAgrees(e1, e2, text, i);
    }
  }

  lemma EarlyStageAgrees(e1: Engine, e2: Engine, text: string, i: nat)
    requires forall p, s :: p != AxaSpecificOdenecek ==> e1(p, s) == e2(p, s)
    ensures EarlyGrossStage(e1, text, i) == EarlyGrossStage(e2, text, i)
  {
  }

  lemma LateStageAgrees(e1: Engine, e2: Engine, text: string, i: nat)
    requires forall p, s :: p != AxaSpecificOdenecek ==> e1(p, s) == e2(p, s)
    ensures LateGrossStage(e1, text, false, i) == LateGrossStage(e2, text, false, i)
  {
  }
}
