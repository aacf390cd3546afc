/** The shared patterns and the keyword-proximity helper.

    The simple token patterns are scanned by hand here, with the backtracking
    of the .NET engine worked out for each: `DatePattern`, `TcNoPattern`,
    `PlateNumberPattern`, `MoneyPattern` and the `[\d.,]+` run that
    `ExtractByKeyword` takes.
    A scan that finds a match continues after its end, as `Regex.Matches` does,
    and word boundaries look at the characters of the whole string. */
module RegexPatterns {
  import opened Wrappers
  import opened Text

  /** Where a hand-scanned match starts and how long it is. */
  datatype Span = Span(start: nat, len: nat)

  function Slice(s: string, m: Span): string
    requires m.start + m.len <= |s|
  {
    s[m.start..m.start + m.len]
  }

  /** The character classes the scanners take runs of. */
  datatype CharClass = Digits | Spaces | Letters | Numerals

  predicate In(c: char, p: CharClass) {
    match p
    case Digits => IsDigit(c)
    case Spaces => IsWhiteSpace(c)
    case Letters => IsAsciiLetter(c)
    case Numerals => IsNumericChar(c)
  }

  /** The length of the longest run of characters of class `p` starting at `i`
      (a greedy `[...]*`). */
  function Run(s: string, i: nat, p: CharClass): (n: nat)
    requires i <= |s|
    decreases |s| - i
    ensures i + n <= |s|
    ensures i + n == |s| || !In(s[i + n], p)
  {
    if i < |s| && In(s[i], p) then 1 + Run(s, i + 1, p) else 0
  }

  /** Every character of the run is of class `p`. */
  lemma {:induction false} RunChars(s: string, i: nat, p: CharClass)
    requires i <= |s|
    ensures forall j :: i <= j < i + Run(s, i, p) ==> In(s[j], p)
    decreases |s| - i
  {
    if i < |s| && In(s[i], p) { RunChars(s, i + 1, p); }
  }

  /** `\b` in front of a word character at `i`. */
  predicate WordStart(s: string, i: nat)
    requires i <= |s|
  {
    i == 0 || !IsWordChar(s[i - 1])
  }

  /** `\b` after a word character that ends at `e`. */
  predicate WordEnd(s: string, e: nat)
    requires e <= |s|
  {
    e == |s| || !IsWordChar(s[e])
  }

  // ---------------------------------------------------------------- ExtractByKeyword

  predicate IsNumericChar(c: char) { IsDigit(c) || c == '.' || c == ',' }

  /** `Regex.Match(s, @"[\d.,]+")` searching from `from`. */
  function FirstNumericRun(s: string, from: nat): (r: Option<Span>)
    requires from <= |s|
    decreases |s| - from
    ensures r.None? ==> forall j :: from <= j < |s| ==> !IsNumericChar(s[j])
    ensures r.Some? ==> from <= r.value.start && 1 <= r.value.len && r.value.start + r.value.len <= |s|
    ensures r.Some? ==> LeftmostRunFrom(s, from, r.value)
  {
    if from == |s| then None
    else if IsNumericChar(s[from]) then
      RunChars(s, from, Numerals);
      Some(Span(from, Run(s, from, Numerals)))
    else FirstNumericRun(s, from + 1)
  }

  /** `m` is the leftmost maximal run of digits, dots and commas at or after `from`. */
  predicate LeftmostRunFrom(s: string, from: nat, m: Span) {
    && m.start + m.len <= |s|
    && (forall j :: from <= j < m.start ==> !IsNumericChar(s[j]))
    && (forall j :: m.start <= j < m.start + m.len ==> IsNumericChar(s[j]))
    && (m.start + m.len == |s| || !IsNumericChar(s[m.start + m.len]))
  }

  /** The default `maxDistance` of `ExtractByKeyword`. */
  const DefaultMaxDistance: nat := 50

  /** The text `ExtractByKeyword` searches: the `maxDistance` characters (fewer at the end of
      the text) after the first case-insensitive occurrence of `keyword`. */
  function KeywordWindow(text: string, keyword: string, maxDistance: nat): (w: Option<string>)
    ensures w.None? <==> IndexOfIgnoreCase(text, keyword).None?
    ensures w.Some? ==> |w.value| <= maxDistance
    ensures w.Some? ==> var k := IndexOfIgnoreCase(text, keyword).value;
                        k + |keyword| + |w.value| <= |text| &&
                        w.value == text[k + |keyword|..k + |keyword| + |w.value|] &&
                        (|w.value| == maxDistance || k + |keyword| + |w.value| == |text|)
  {
    match IndexOfIgnoreCase(text, keyword)
    case None => None
    case Some(k) => Some(WindowAfter(text, k + |keyword|, maxDistance))
  }

  /** The `maxDistance` characters from `start`, fewer at the end of the text. */
  function WindowAfter(text: string, start: nat, maxDistance: nat): (w: string)
    requires start <= |text|
    ensures |w| <= maxDistance && start + |w| <= |text| && w == text[start..start + |w|]
    ensures |w| == maxDistance || start + |w| == |text|
  {
    var end := if start + maxDistance < |text| then start + maxDistance else |text|;
    assert end - start <= maxDistance;
    text[start..end]
  }

  /** `text.Substring(index, Math.Min(length, text.Length - index))` at the first
      case-insensitive occurrence of the keyword: the window starts with the keyword itself. */
  function KeywordSpan(text: string, keyword: string, length: nat): (w: Option<string>)
    ensures w.None? <==> IndexOfIgnoreCase(text, keyword).None?
    ensures w.Some? ==> |w.value| <= length
    ensures w.Some? ==> var k := IndexOfIgnoreCase(text, keyword).value;
                        k + |w.value| <= |text| && w.value == text[k..k + |w.value|] &&
                        (|w.value| == length || k + |w.value| == |text|)
  {
    match IndexOfIgnoreCase(text, keyword)
    case None => None
    case Some(k) =>
      var end := if k + length < |text| then k + length else |text|;
      var w := text[k..end];
      assert |w| == end - k && k + |w| == end;
      Some(w)
  }

  /** `Regex.Match(w, @"[\d.,]+").Value`, if it matches: the leftmost maximal run of digits,
      dots and commas. */
  function FirstNumericToken(w: string): (r: Option<string>)
    ensures r.Some? ==> 1 <= |r.value| <= |w|
    ensures r.Some? ==> exists j :: LeftmostRunAt(w, j, r.value)
    ensures r.None? ==> forall j :: 0 <= j < |w| ==> !IsNumericChar(w[j])
  {
    match FirstNumericRun(w, 0)
    case None => None
    case Some(m) =>
      var v := Slice(w, m);
      assert forall i :: 0 <= i < |v| ==> v[i] == w[m.start + i];
      assert LeftmostRunAt(w, m.start, v);
      Some(v)
  }

  /** A leftmost run holds only digits, dots and commas. */
  lemma LeftmostRunChars(w: string, j: nat, v: string)
    requires LeftmostRunAt(w, j, v)
    ensures forall i :: 0 <= i < |v| ==> IsNumericChar(v[i])
  {
    forall i | 0 <= i < |v| ensures IsNumericChar(v[i]) {
      assert v[i] == w[j..j + |v|][i] == w[j + i];
    }
  }

  /** `ExtractByKeyword(text, keyword, maxDistance)`: the first number-like run in the window
      after the keyword's first occurrence. */
  function ExtractByKeyword(text: string, keyword: string, maxDistance: nat): (r: Option<string>)
    ensures IndexOfIgnoreCase(text, keyword).None? ==> r.None?
    ensures r.Some? ==> 1 <= |r.value| <= maxDistance
    ensures r.Some? ==> forall j :: 0 <= j < |r.value| ==> IsNumericChar(r.value[j])
    ensures r.Some? ==> KeywordWindow(text, keyword, maxDistance).Some? &&
                        exists j :: LeftmostRunAt(KeywordWindow(text, keyword, maxDistance).value, j, r.value)
    ensures r.None? && KeywordWindow(text, keyword, maxDistance).Some? ==>
              var w := KeywordWindow(text, keyword, maxDistance).value;
              forall j :: 0 <= j < |w| ==> !IsNumericChar(w[j])
  {
    match KeywordWindow(text, keyword, maxDistance)
    case None => None
    case Some(w) =>
      var r := FirstNumericToken(w);
      if r.Some? then
        var j :| LeftmostRunAt(w, j, r.value);
        LeftmostRunChars(w, j, r.value);
        r
      else r
  }

  /** `v` is the leftmost maximal number-like run of `w`, and it starts at `j`. */
  predicate LeftmostRunAt(w: string, j: nat, v: string) {
    && j + |v| <= |w| && w[j..j + |v|] == v
    && (forall i :: 0 <= i < j ==> !IsNumericChar(w[i]))
    && (forall i :: j <= i < j + |v| ==> IsNumericChar(w[i]))
    && (j + |v| == |w| || !IsNumericChar(w[j + |v|]))
  }

  // ---------------------------------------------------------------- TcNoPattern

  /** `\b(\d{11})\b` matches at `i`. */
  predicate TcNoMatchAt(s: string, i: nat) {
    i + 11 <= |s| && WordStart(s, i) && AllDigits(s[i..i + 11]) && WordEnd(s, i + 11)
  }

  /** `TcNoPattern.Matches(s)`, scanning from `from`. */
  function TcNoMatchesFrom(s: string, from: nat): (ms: seq<string>)
    decreases |s| - from
    ensures forall t :: t in ms ==> |t| == 11 && AllDigits(t)
  {
    if from + 11 > |s| then []
    else if TcNoMatchAt(s, from) then [s[from..from + 11]] + TcNoMatchesFrom(s, from + 11)
    else TcNoMatchesFrom(s, from + 1)
  }

  function TcNoMatches(s: string): seq<string> { TcNoMatchesFrom(s, 0) }

  /** The scan misses no candidate: every word-bounded run of eleven digits at or after
      `from` is one of its matches. Two such runs never overlap, since the digit after the
      first eleven would break its closing `\b`. */
  lemma {:induction false} TcNoMatchesComplete(s: string, from: nat, i: nat)
    requires from <= i && TcNoMatchAt(s, i)
    ensures s[i..i + 11] in TcNoMatchesFrom(s, from)
    decreases |s| - from
  {
    if from + 11 <= |s| {
      if TcNoMatchAt(s, from) {
        if from < i {
          TcNoNoOverlap(s, from, i);
          TcNoMatchesComplete(s, from + 11, i);
        }
      } else {
        TcNoMatchesComplete(s, from + 1, i);
      }
    }
  }

  /** A second word-bounded eleven-digit run starts no sooner than the first one ends. */
  lemma TcNoNoOverlap(s: string, a: nat, b: nat)
    requires a < b && TcNoMatchAt(s, a) && TcNoMatchAt(s, b)
    ensures a + 11 <= b
  {
    if b < a + 11 {
      assert false;
    }
  }

  /** A candidate is a whole digit run of exactly eleven: the digits neither continue before
      nor after it, so a run of 10 or 12 digits yields no candidate. */
  lemma TcNoMatchIsWholeRun(s: string, i: nat)
    requires TcNoMatchAt(s, i)
    ensures Run(s, i, Digits) == 11
    ensures i == 0 || !IsDigit(s[i - 1])
  {
    forall j | i <= j < i + 11 ensures IsDigit(s[j]) {
      assert s[j] == s[i..i + 11][j - i];
    }
    RunAtLeast(s, i, Digits, 11);
  }

  lemma {:induction false} RunAtLeast(s: string, i: nat, p: CharClass, n: nat)
    requires i + n <= |s|
    requires forall j :: i <= j < i + n ==> In(s[j], p)
    requires i + n == |s| || !In(s[i + n], p)
    ensures Run(s, i, p) == n
    decreases n
  {
    if n > 0 { RunAtLeast(s, i + 1, p, n - 1); }
  }

  // ---------------------------------------------------------------- DatePattern

  predicate IsDateSep(c: char) { c == '.' || c == '/' || c == '-' }

  /** `\b(\d{1,2})[./\-](\d{1,2})[./\-](\d{4})\b` at `i`: the length of the match.
      Each `\d{1,2}` must be followed by a separator, so it takes the whole digit run,
      which must be one or two long; the year run must be exactly four long. */
  function DateMatchAt(s: string, i: nat): (r: Option<nat>)
    requires i <= |s|
    ensures r.Some? ==> i + r.value <= |s| && 8 <= r.value
  {
    if !WordStart(s, i) then None
    else
      var a := Run(s, i, Digits);
      if !(1 <= a <= 2 && i + a < |s| && IsDateSep(s[i + a])) then None
      else
        var j := i + a + 1;
        var b := Run(s, j, Digits);
        if !(1 <= b <= 2 && j + b < |s| && IsDateSep(s[j + b])) then None
        else
          var k := j + b + 1;
          if Run(s, k, Digits) == 4 && WordEnd(s, k + 4) then Some(k + 4 - i) else None
  }

  /** `DatePattern.Matches(s)` (and the same-shaped end-date fallback pattern), from `from`. */
  function DateMatchesFrom(s: string, from: nat): seq<string>
    requires from <= |s|
    decreases |s| - from
  {
    if from == |s| then []
    else match DateMatchAt(s, from)
      case Some(n) => [s[from..from + n]] + DateMatchesFrom(s, from + n)
      case None => DateMatchesFrom(s, from + 1)
  }

  function DateMatches(s: string): seq<string> { DateMatchesFrom(s, 0) }

  /** The shape of a date token with an `a`-digit day field and a `b`-digit month field:
      the digits, a separator, the digits, a separator, four digits. */
  predicate DateTokenShape(t: string, a: nat, b: nat)
    requires 1 <= a <= 2 && 1 <= b <= 2
  {
    && |t| == a + b + 6
    && IsDigit(t[0]) && (a == 1 || IsDigit(t[1])) && IsDateSep(t[a])
    && IsDigit(t[a + 1]) && (b == 1 || IsDigit(t[a + 2])) && IsDateSep(t[a + b + 1])
    && IsDigit(t[a + b + 2]) && IsDigit(t[a + b + 3]) && IsDigit(t[a + b + 4]) && IsDigit(t[a + b + 5])
  }

  /** 1-2 digits, a separator, 1-2 digits, a separator, 4 digits. */
  predicate IsDateToken(t: string) {
    DateTokenShape(t, 1, 1) || DateTokenShape(t, 1, 2) || DateTokenShape(t, 2, 1) || DateTokenShape(t, 2, 2)
  }

  /** Every match of `DatePattern` has the date-token shape. */
  lemma DateMatchShape(s: string, i: nat)
    requires i <= |s| && DateMatchAt(s, i).Some?
    ensures IsDateToken(s[i..i + DateMatchAt(s, i).value])
  {
    var n := DateMatchAt(s, i).value;
    var a := Run(s, i, Digits);
    var j := i + a + 1;
    var b := Run(s, j, Digits);
    var k := j + b + 1;
    RunChars(s, i, Digits);
    RunChars(s, j, Digits);
    RunChars(s, k, Digits);
    assert n == a + b + 6;
    DateSliceShape(s, i, a, b);
  }

  lemma DateSliceShape(s: string, i: nat, a: nat, b: nat)
    requires 1 <= a <= 2 && 1 <= b <= 2 && i + a + b + 6 <= |s|
    requires forall x :: i <= x < i + a ==> IsDigit(s[x])
    requires IsDateSep(s[i + a])
    requires forall x :: i + a + 1 <= x < i + a + 1 + b ==> IsDigit(s[x])
    requires IsDateSep(s[i + a + 1 + b])
    requires forall x :: i + a + b + 2 <= x < i + a + b + 6 ==> IsDigit(s[x])
    ensures DateTokenShape(s[i..i + a + b + 6], a, b)
  {
    var t := s[i..i + a + b + 6];
    assert forall x :: 0 <= x < |t| ==> t[x] == s[i + x];
  }

  /** Every token the scan returns has the date-token shape. */
  lemma {:induction false} DateMatchesShape(s: string, from: nat)
    requires from <= |s|
    ensures forall t :: t in DateMatchesFrom(s, from) ==> IsDateToken(t)
    decreases |s| - from
  {
    if from < |s| {
      match DateMatchAt(s, from)
      case Some(n) =>
        DateMatchShape(s, from);
        DateMatchesShape(s, from + n);
        DateTokensCons(s[from..from + n], DateMatchesFrom(s, from + n));
      case None =>
        DateMatchesShape(s, from + 1);
    }
  }

  lemma DateTokensCons(t: string, rest: seq<string>)
    requires IsDateToken(t) && forall u :: u in rest ==> IsDateToken(u)
    ensures forall u :: u in [t] + rest ==> IsDateToken(u)
  {
  }

  // ---------------------------------------------------------------- MoneyPattern

  predicate IsMoneySep(c: char) { c == '.' || c == ',' }

  /** `[.,]\d{3}` at `j`. */
  predicate ThousandsAt(s: string, j: nat) {
    j + 4 <= |s| && IsMoneySep(s[j]) && IsDigit(s[j + 1]) && IsDigit(s[j + 2]) && IsDigit(s[j + 3])
  }

  /** `[.,]\d{2}` at `j`. */
  predicate CentsAt(s: string, j: nat) {
    j + 3 <= |s| && IsMoneySep(s[j]) && IsDigit(s[j + 1]) && IsDigit(s[j + 2])
  }

  /** How many groups the greedy `(?:[.,]\d{3})*` takes from `j`. */
  function ThousandsRun(s: string, j: nat): (g: nat)
    requires j <= |s|
    decreases |s| - j
    ensures j + 4 * g <= |s|
  {
    if ThousandsAt(s, j) then 1 + ThousandsRun(s, j + 4) else 0
  }

  /** `(?:[.,]\d{2})?\b` after the digits and `g` groups from `base`: the end of the match.
      With `g` groups the two-digit tail is tried first, then its absence; when neither is
      followed by `\b`, the engine gives back one group and tries again. */
  function MoneyEnd(s: string, base: nat, g: nat): (r: Option<nat>)
    requires base + 4 * g <= |s|
    decreases g
    ensures r.Some? ==> base <= r.value <= |s|
  {
    var e := base + 4 * g;
    if CentsAt(s, e) && WordEnd(s, e + 3) then Some(e + 3)
    else if WordEnd(s, e) then Some(e)
    else if g == 0 then None
    else MoneyEnd(s, base, g - 1)
  }

  /** `\b(\d{1,3}(?:[.,]\d{3})*(?:[.,]\d{2})?)\b` at `i`: the end of the match. `\d{1,3}`
      must take the whole digit run, one to three long: fewer digits leave a digit that
      neither a separator nor `\b` accepts. */
  function MoneyMatchAt(s: string, i: nat): (r: Option<nat>)
    requires i <= |s|
    ensures r.Some? ==> i < r.value <= |s|
  {
    if !WordStart(s, i) then None
    else
      var d := Run(s, i, Digits);
      if !(1 <= d <= 3) then None else MoneyEnd(s, i + d, ThousandsRun(s, i + d))
  }

  /** `MoneyPattern.Matches(s)`, scanning from `from`. */
  function MoneyMatchesFrom(s: string, from: nat): seq<string>
    requires from <= |s|
    decreases |s| - from
  {
    if from == |s| then []
    else match MoneyMatchAt(s, from)
      case Some(e) => [s[from..e]] + MoneyMatchesFrom(s, e)
      case None => MoneyMatchesFrom(s, from + 1)
  }

  function MoneyMatches(s: string): seq<string> { MoneyMatchesFrom(s, 0) }

  /** `t` is `g` groups of a separator and three digits. */
  predicate ThousandsGroups(t: string, g: nat)
    decreases g
  {
    if g == 0 then t == []
    else |t| >= 4 && IsMoneySep(t[0]) && IsDigit(t[1]) && IsDigit(t[2]) && IsDigit(t[3]) &&
         ThousandsGroups(t[4..], g - 1)
  }

  /** The shape of a money token: `d` digits (one to three), `g` thousands groups, and with
      `cents` a separator and two digits. */
  predicate MoneyTokenShape(t: string, d: nat, g: nat, cents: bool) {
    && 1 <= d <= 3 && |t| == d + 4 * g + (if cents then 3 else 0)
    && (forall x :: 0 <= x < d ==> IsDigit(t[x]))
    && ThousandsGroups(t[d..d + 4 * g], g)
    && (cents ==> IsMoneySep(t[d + 4 * g]) && IsDigit(t[d + 4 * g + 1]) && IsDigit(t[d + 4 * g + 2]))
  }

  predicate IsMoneyToken(t: string) {
    exists d: nat, g: nat, cents: bool :: d <= 3 && g <= |t| && MoneyTokenShape(t, d, g, cents)
  }

  /** Every match of `MoneyPattern` has the money-token shape, and it is bounded by `\b` on
      both sides. */
  lemma MoneyMatchShape(s: string, i: nat)
    requires i <= |s| && MoneyMatchAt(s, i).Some?
    ensures IsMoneyToken(s[i..MoneyMatchAt(s, i).value])
    ensures WordStart(s, i) && WordEnd(s, MoneyMatchAt(s, i).value)
  {
    var d := Run(s, i, Digits);
    assert WordStart(s, i) && 1 <= d <= 3;
    assert MoneyMatchAt(s, i) == MoneyEnd(s, i + d, ThousandsRun(s, i + d));
    RunChars(s, i, Digits);
    MoneyPiecesShape(s, i, d);
  }

  /** The digits, the groups and the tail that `MoneyEnd` settles on form a money token. */
  lemma MoneyPiecesShape(s: string, i: nat, d: nat)
    requires 1 <= d <= 3 && i + d <= |s|
    requires forall x :: i <= x < i + d ==> IsDigit(s[x])
    requires MoneyEnd(s, i + d, ThousandsRun(s, i + d)).Some?
    ensures IsMoneyToken(s[i..MoneyEnd(s, i + d, ThousandsRun(s, i + d)).value])
    ensures WordEnd(s, MoneyEnd(s, i + d, ThousandsRun(s, i + d)).value)
  {
    var base := i + d;
    var g0 := ThousandsRun(s, base);
    var g, cents := MoneyEndPieces(s, base, g0);
    ThousandsRunGroups(s, base, g);
    TokenAt(s, i, d, g, cents);
  }

  lemma TokenAt(s: string, i: nat, d: nat, g: nat, cents: bool)
    requires 1 <= d <= 3 && i + d + 4 * g + (if cents then 3 else 0) <= |s|
    requires forall x :: i <= x < i + d ==> IsDigit(s[x])
    requires ThousandsGroups(s[i + d..i + d + 4 * g], g)
    requires cents ==> CentsAt(s, i + d + 4 * g)
    ensures IsMoneyToken(s[i..i + d + 4 * g + (if cents then 3 else 0)])
  {
    MoneySliceShape(s, i, d, g, cents);
    ShapeIsToken(s[i..i + d + 4 * g + (if cents then 3 else 0)], d, g, cents);
  }

  lemma ShapeIsToken(t: string, d: nat, g: nat, cents: bool)
    requires MoneyTokenShape(t, d, g, cents)
    ensures IsMoneyToken(t)
  {
    assert d <= 3 && g <= |t|;
  }

  /** Where `MoneyEnd` stops: after `g` of the groups, with or without the tail, at `\b`. */
  lemma {:induction false} MoneyEndPieces(s: string, base: nat, g0: nat) returns (g: nat, cents: bool)
    requires base + 4 * g0 <= |s| && MoneyEnd(s, base, g0).Some?
    ensures g <= g0
    ensures MoneyEnd(s, base, g0).value == base + 4 * g + (if cents then 3 else 0)
    ensures cents ==> CentsAt(s, base + 4 * g)
    ensures WordEnd(s, MoneyEnd(s, base, g0).value)
    decreases g0
  {
    var e := base + 4 * g0;
    if CentsAt(s, e) && WordEnd(s, e + 3) {
      g, cents := g0, true;
    } else if WordEnd(s, e) {
      g, cents := g0, false;
    } else {
      g, cents := MoneyEndPieces(s, base, g0 - 1);
    }
  }

  /** The groups the greedy star takes are thousands groups. */
  lemma {:induction false} ThousandsRunGroups(s: string, j: nat, g: nat)
    requires j <= |s| && g <= ThousandsRun(s, j)
    ensures j + 4 * g <= |s| && ThousandsGroups(s[j..j + 4 * g], g)
    decreases g
  {
    if g > 0 {
      ThousandsRunGroups(s, j + 4, g - 1);
      var t := s[j..j + 4 * g];
      assert t[4..] == s[j + 4..j + 4 + 4 * (g - 1)];
      assert t[0] == s[j] && t[1] == s[j + 1] && t[2] == s[j + 2] && t[3] == s[j + 3];
    }
  }

  lemma MoneySliceShape(s: string, i: nat, d: nat, g: nat, cents: bool)
    requires 1 <= d <= 3 && i + d + 4 * g + (if cents then 3 else 0) <= |s|
    requires forall x :: i <= x < i + d ==> IsDigit(s[x])
    requires ThousandsGroups(s[i + d..i + d + 4 * g], g)
    requires cents ==> CentsAt(s, i + d + 4 * g)
    ensures MoneyTokenShape(s[i..i + d + 4 * g + (if cents then 3 else 0)], d, g, cents)
  {
    var t := s[i..i + d + 4 * g + (if cents then 3 else 0)];
    assert forall x :: 0 <= x < |t| ==> t[x] == s[i + x];
    assert t[d..d + 4 * g] == s[i + d..i + d + 4 * g];
  }

  /** Every token the scan returns has the money-token shape. */
  lemma {:induction false} MoneyMatchesShape(s: string, from: nat)
    requires from <= |s|
    ensures forall t :: t in MoneyMatchesFrom(s, from) ==> IsMoneyToken(t)
    decreases |s| - from
  {
    if from < |s| {
      match MoneyMatchAt(s, from)
      case Some(e) =>
        MoneyMatchShape(s, from);
        MoneyMatchesShape(s, e);
        assert forall u :: u in [s[from..e]] + MoneyMatchesFrom(s, e) ==> u == s[from..e] || u in MoneyMatchesFrom(s, e);
      case None =>
        MoneyMatchesShape(s, from + 1);
    }
  }

  /** A grouped amount is matched whole. */
  lemma GroupedAmountExample(s: string)
    requires s == "1.234,56 TL"
    ensures MoneyMatches(s) == ["1.234,56"]
  {
    assert Run(s, 0, Digits) == 1;
    assert ThousandsRun(s, 1) == 1 by { assert ThousandsAt(s, 1) && !ThousandsAt(s, 5); }
    assert MoneyMatchAt(s, 0) == Some(8);
    assert MoneyMatchAt(s, 8).None? && MoneyMatchAt(s, 9).None? && MoneyMatchAt(s, 10).None?;
    assert MoneyMatchesFrom(s, 10) == MoneyMatchesFrom(s, 11) == [];
    assert MoneyMatchesFrom(s, 8) == MoneyMatchesFrom(s, 9) == MoneyMatchesFrom(s, 10);
    assert s[0..8] == "1.234,56";
    assert MoneyMatchesFrom(s, 0) == [s[0..8]] + MoneyMatchesFrom(s, 8);
  }

  /** Four digits before the point are not a money token: the leading run is too long for
      `\d{1,3}` and no start inside it is at `\b`, so only the decimals are matched. */
  lemma UngroupedAmountExample(s: string)
    requires s == "1234.56"
    ensures MoneyMatches(s) == ["56"]
  {
    assert Run(s, 4, Digits) == 0;
    assert Run(s, 0, Digits) == 1 + Run(s, 1, Digits) == 2 + Run(s, 2, Digits) == 3 + Run(s, 3, Digits) == 4;
    assert MoneyMatchAt(s, 0).None?;
    assert MoneyMatchAt(s, 1).None? && MoneyMatchAt(s, 2).None? && MoneyMatchAt(s, 3).None? && MoneyMatchAt(s, 4).None?;
    assert MoneyMatchesFrom(s, 0) == MoneyMatchesFrom(s, 1) == MoneyMatchesFrom(s, 2) == MoneyMatchesFrom(s, 3)
        == MoneyMatchesFrom(s, 4) == MoneyMatchesFrom(s, 5);
    assert Run(s, 7, Digits) == 0;
    assert Run(s, 5, Digits) == 2;
    assert MoneyMatchAt(s, 5) == Some(7);
    assert MoneyMatchesFrom(s, 7) == [];
    assert s[5..7] == "56";
    assert MoneyMatchesFrom(s, 5) == [s[5..7]] + MoneyMatchesFrom(s, 7);
  }

  // ---------------------------------------------------------------- PlateNumberPattern

  /** The part of `\b(0?\d{2}\s*[A-Z]{1,3}\s*\d{2,4})\b` after the optional `0`, from `j`:
      the end of the match. Each `\s*` and the letter class must take their whole runs (the
      next item cannot match what they leave), and the closing `\b` forces the digit run to
      be the whole run, 2 to 4 long. */
  function PlateTail(s: string, j: nat): (r: Option<nat>)
    requires j <= |s|
    ensures r.Some? ==> j + 5 <= r.value <= |s|
  {
    if !(j + 2 <= |s| && IsDigit(s[j]) && IsDigit(s[j + 1])) then None
    else PlateLetters(s, j + 2 + Run(s, j + 2, Spaces))
  }

  /** `[A-Z]{1,3}\s*\d{2,4}\b` from `k`. Under IgnoreCase `[A-Z]` takes both cases. */
  function PlateLetters(s: string, k: nat): (r: Option<nat>)
    requires k <= |s|
    ensures r.Some? ==> k + 3 <= r.value <= |s|
  {
    var l := Run(s, k, Letters);
    if !(1 <= l <= 3) then None else PlateDigits(s, k + l + Run(s, k + l, Spaces))
  }

  /** `\d{2,4}\b` from `m`. */
  function PlateDigits(s: string, m: nat): (r: Option<nat>)
    requires m <= |s|
    ensures r.Some? ==> m + 2 <= r.value <= |s|
  {
    var d := Run(s, m, Digits);
    if 2 <= d <= 4 && WordEnd(s, m + d) then Some(m + d) else None
  }

  /** `PlateNumberPattern` at `i`: the length of the match. The optional `0` is tried
      first, as the engine does. */
  function PlateMatchAt(s: string, i: nat): (r: Option<nat>)
    requires i <= |s|
    ensures r.Some? ==> i + r.value <= |s| && 5 <= r.value
  {
    if !WordStart(s, i) then None
    else if i < |s| && s[i] == '0' && PlateTail(s, i + 1).Some? then Some(PlateTail(s, i + 1).value - i)
    else match PlateTail(s, i)
      case Some(e) => Some(e - i)
      case None => None
  }

  /** `PlateNumberPattern.Match(s)`, searching start positions from `from`. */
  function FirstPlateMatch(s: string, from: nat): (r: Option<Span>)
    requires from <= |s|
    decreases |s| - from
    ensures r.Some? ==> from <= r.value.start && r.value.start + r.value.len <= |s|
    ensures r.Some? ==> PlateMatchAt(s, r.value.start) == Some(r.value.len)
    ensures r.Some? ==> forall j: nat :: from <= j < r.value.start ==> PlateMatchAt(s, j).None?
    ensures r.None? ==> forall j: nat :: from <= j <= |s| ==> PlateMatchAt(s, j).None?
  {
    var here := PlateMatchAt(s, from);
    if here.Some? then Some(Span(from, here.value))
    else if from == |s| then None
    else FirstPlateMatch(s, from + 1)
  }

  /** The value of `PlateNumberPattern.Match(s)`, if it succeeds. */
  function PlateMatch(s: string): (r: Option<string>)
    ensures r.Some? ==> 5 <= |r.value|
  {
    match FirstPlateMatch(s, 0)
    case Some(m) => Some(Slice(s, m))
    case None => None
  }
  /** The pieces of a plate match from `j` to `e`: two digits, white space up to `k`,
      letters from `k` to `p` (one to three), white space up to `m`, two to four digits up
      to `e`, and no word character after them. */
  predicate PlatePieces(s: string, j: nat, k: nat, p: nat, m: nat, e: nat) {
    && j + 2 <= k <= |s| && IsDigit(s[j]) && IsDigit(s[j + 1])
    && (forall x :: j + 2 <= x < k ==> IsWhiteSpace(s[x]))
    && LetterPieces(s, k, p, m) && DigitPieces(s, m, e)
  }

  predicate LetterPieces(s: string, k: nat, p: nat, m: nat) {
    && k < p <= m <= |s| && p - k <= 3
    && (forall x :: k <= x < p ==> IsAsciiLetter(s[x]))
    && (forall x :: p <= x < m ==> IsWhiteSpace(s[x]))
  }

  predicate DigitPieces(s: string, m: nat, e: nat) {
    && m + 2 <= e <= m + 4 && e <= |s|
    && (forall x :: m <= x < e ==> IsDigit(s[x]))
    && WordEnd(s, e)
  }

  lemma PlateDigitsPieces(s: string, m: nat, e: nat)
    requires m <= |s|
    ensures PlateDigits(s, m) == Some(e) <==> DigitPieces(s, m, e)
  {
    RunChars(s, m, Digits);
    if DigitPieces(s, m, e) {
      assert e == |s| || !IsDigit(s[e]);
      RunAtLeast(s, m, Digits, e - m);
    }
  }

  lemma PlateLettersPieces(s: string, k: nat, e: nat)
    requires k <= |s|
    ensures PlateLetters(s, k) == Some(e) <==> exists p: nat, m: nat :: LetterPieces(s, k, p, m) && DigitPieces(s, m, e)
  {
    if PlateLetters(s, k) == Some(e) {
      var p, m := PlateLettersSplit(s, k, e);
    }
    if exists p: nat, m: nat :: LetterPieces(s, k, p, m) && DigitPieces(s, m, e) {
      var p: nat, m: nat :| LetterPieces(s, k, p, m) && DigitPieces(s, m, e);
      PlateLettersJoin(s, k, p, m, e);
    }
  }

  lemma PlateLettersSplit(s: string, k: nat, e: nat) returns (p: nat, m: nat)
    requires k <= |s| && PlateLetters(s, k) == Some(e)
    ensures LetterPieces(s, k, p, m) && DigitPieces(s, m, e)
  {
    p := k + Run(s, k, Letters);
    m := p + Run(s, p, Spaces);
    RunChars(s, k, Letters);
    RunChars(s, p, Spaces);
    PlateDigitsPieces(s, m, e);
  }

  lemma PlateLettersJoin(s: string, k: nat, p: nat, m: nat, e: nat)
    requires LetterPieces(s, k, p, m) && DigitPieces(s, m, e)
    ensures PlateLetters(s, k) == Some(e)
  {
    assert IsDigit(s[m]);
    assert !IsAsciiLetter(s[p]) by { if p < m { assert IsWhiteSpace(s[p]); } }
    RunAtLeast(s, k, Letters, p - k);
    RunAtLeast(s, p, Spaces, m - p);
    PlateDigitsPieces(s, m, e);
  }

  /** The scan after the optional `0` succeeds, ending at `e`, exactly when the text from `j`
      to `e` falls into the pieces of a plate: the greedy runs leave no other way to match. */
  lemma PlateTailPieces(s: string, j: nat, e: nat)
    requires j <= |s|
    ensures PlateTail(s, j) == Some(e) <==> exists k: nat, p: nat, m: nat :: PlatePieces(s, j, k, p, m, e)
  {
    if PlateTail(s, j) == Some(e) {
      var k, p, m := PlateTailSplit(s, j, e);
    }
    if exists k: nat, p: nat, m: nat :: PlatePieces(s, j, k, p, m, e) {
      var k: nat, p: nat, m: nat :| PlatePieces(s, j, k, p, m, e);
      PlateTailJoin(s, j, k, p, m, e);
    }
  }

  lemma PlateTailSplit(s: string, j: nat, e: nat) returns (k: nat, p: nat, m: nat)
    requires j <= |s| && PlateTail(s, j) == Some(e)
    ensures PlatePieces(s, j, k, p, m, e)
  {
    k := j + 2 + Run(s, j + 2, Spaces);
    RunChars(s, j + 2, Spaces);
    p, m := PlateLettersSplit(s, k, e);
  }

  lemma PlateTailJoin(s: string, j: nat, k: nat, p: nat, m: nat, e: nat)
    requires PlatePieces(s, j, k, p, m, e)
    ensures PlateTail(s, j) == Some(e)
  {
    RunAtLeast(s, j + 2, Spaces, k - j - 2);
    PlateLettersJoin(s, k, p, m, e);
    PlateTailOfLetters(s, j, k, e);
  }

  lemma PlateTailOfLetters(s: string, j: nat, k: nat, e: nat)
    requires j + 2 <= k <= |s| && IsDigit(s[j]) && IsDigit(s[j + 1])
    requires j + 2 + Run(s, j + 2, Spaces) == k
    requires PlateLetters(s, k) == Some(e)
    ensures PlateTail(s, j) == Some(e)
  {
  }
}
