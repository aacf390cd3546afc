/** `decimal.Parse(s, CultureInfo.InvariantCulture)`, which reads `NumberStyles.Number`:
    white space around the number, one sign in front of it or behind it, digits with at most
    one decimal point '.', and at least one digit. The value is kept exact as a `real`;
    a magnitude above the largest `decimal` is the overflow the parse throws. */
module DecimalParse {
  import opened Wrappers
  import opened Text
  import opened RegexPatterns

  /** `decimal.MaxValue`. */
  const MaxDecimal: real := 79228162514264337593543950335.0

  /** The white space the number parser skips: U+0020 and U+0009..U+000D. */
  predicate IsNumberWhite(c: char) { c == ' ' || '\t' <= c <= '\r' }

  predicate IsSign(c: char) { c == '+' || c == '-' }

  function Pow10(n: nat): (p: nat)
    ensures p >= 1
  {
    if n == 0 then 1 else 10 * Pow10(n - 1)
  }

  /** The value of a string of decimal digits, most significant first. */
  function DigitsValue(ds: string): nat
    requires AllDigits(ds)
  {
    if ds == [] then 0
    else
      assert AllDigits(ds[..|ds| - 1]);
      DigitsValue(ds[..|ds| - 1]) * 10 + DigitValue(ds[|ds| - 1])
  }

  /** The value of the `n` digits of `s` from `i`. */
  function DigitsAt(s: string, i: nat, n: nat): nat
    requires i + n <= |s|
    requires forall j :: i <= j < i + n ==> IsDigit(s[j])
  {
    var ds := s[i..i + n];
    assert forall j :: 0 <= j < |ds| ==> ds[j] == s[i + j];
    DigitsValue(ds)
  }

  /** The value of digits `intPart`, a point, and `digits` digits of value `frac`. */
  function Magnitude(intPart: nat, frac: nat, digits: nat): (m: real)
    ensures m >= 0.0
  {
    assert frac as real / Pow10(digits) as real >= 0.0;
    intPart as real + frac as real / Pow10(digits) as real
  }

  /** The length of the run of number white space at `i`. */
  function WhiteRun(s: string, i: nat): (n: nat)
    requires i <= |s|
    decreases |s| - i
    ensures i + n <= |s|
    ensures forall j :: i <= j < i + n ==> IsNumberWhite(s[j])
    ensures i + n == |s| || !IsNumberWhite(s[i + n])
  {
    if i < |s| && IsNumberWhite(s[i]) then 1 + WhiteRun(s, i + 1) else 0
  }

  /** What follows the digits: white space, and one sign when `signAllowed`. The result says
      whether that sign was '-'; `None` when anything else follows. */
  function Trailer(s: string, i: nat, signAllowed: bool): (r: Option<bool>)
    requires i <= |s|
    decreases |s| - i
    ensures !signAllowed && r.Some? ==> !r.value
  {
    if i == |s| then Some(false)
    else if IsNumberWhite(s[i]) then Trailer(s, i + 1, signAllowed)
    else if signAllowed && IsSign(s[i]) then
      match Trailer(s, i + 1, false)
      case Some(_) => Some(s[i] == '-')
      case None => None
    else None
  }

  /** `decimal.Parse` under the invariant culture, for strings without the group separator
      ','; `None` where it throws a `FormatException` or an `OverflowException`. */
  function ParseDecimal(s: string): (r: Option<real>)
    ensures r.Some? ==> -MaxDecimal <= r.value <= MaxDecimal
  {
    var a := WhiteRun(s, 0);
    if a < |s| && IsSign(s[a]) then ParseDigits(s, a + 1, false, s[a] == '-')
    else ParseDigits(s, a, true, false)
  }

  /** The digits from `b`, with at most one decimal point among them, then the trailer. */
  function ParseDigits(s: string, b: nat, signAllowed: bool, leadingMinus: bool): (r: Option<real>)
    requires b <= |s|
    ensures r.Some? ==> -MaxDecimal <= r.value <= MaxDecimal
  {
    var d1 := Run(s, b, Digits);
    RunChars(s, b, Digits);
    if b + d1 < |s| && s[b + d1] == '.' then
      var d2 := Run(s, b + d1 + 1, Digits);
      RunChars(s, b + d1 + 1, Digits);
      if d1 + d2 == 0 then None
      else Finish(s, b + d1 + 1 + d2, signAllowed, leadingMinus,
                  Magnitude(DigitsAt(s, b, d1), DigitsAt(s, b + d1 + 1, d2), d2))
    else if d1 == 0 then None
    else Finish(s, b + d1, signAllowed, leadingMinus, DigitsAt(s, b, d1) as real)
  }

  /** The trailer from `e`, the overflow check and the sign. */
  function Finish(s: string, e: nat, signAllowed: bool, leadingMinus: bool, magnitude: real): (r: Option<real>)
    requires e <= |s| && magnitude >= 0.0
    ensures r.Some? ==> -MaxDecimal <= r.value <= MaxDecimal
    ensures r.Some? ==> r.value == magnitude || r.value == -magnitude
  {
    match Trailer(s, e, signAllowed)
    case None => None
    case Some(trailingMinus) =>
      if magnitude > MaxDecimal then None
      else if leadingMinus || trailingMinus then Some(-magnitude)
      else Some(magnitude)
  }

  // ---------------------------------------------------------------- writing digits

  function DigitChar(d: nat): (c: char)
    requires d <= 9
    ensures IsDigit(c) && DigitValue(c) == d
  {
    ('0' as int + d) as char
  }

  /** The decimal digits of `n`, without leading zeros. */
  function DecimalDigits(n: nat): (ds: string)
    ensures |ds| > 0 && AllDigits(ds) && DigitsValue(ds) == n
  {
    if n < 10 then [DigitChar(n)]
    else
      var ds := DecimalDigits(n / 10) + [DigitChar(n % 10)];
      assert ds[..|ds| - 1] == DecimalDigits(n / 10);
      ds
  }

  /** `n` written with exactly `w` digits, padded with leading zeros. */
  function PadDigits(n: nat, w: nat): (ds: string)
    requires n < Pow10(w)
    ensures |ds| == w && AllDigits(ds) && DigitsValue(ds) == n
  {
    if w == 0 then []
    else
      assert n / 10 < Pow10(w - 1);
      var ds := PadDigits(n / 10, w - 1) + [DigitChar(n % 10)];
      assert ds[..|ds| - 1] == PadDigits(n / 10, w - 1);
      ds
  }

  // ---------------------------------------------------------------- properties

  lemma {:induction false} DigitsValueConcat(a: string, b: string)
    requires AllDigits(a) && AllDigits(b)
    ensures AllDigits(a + b)
    ensures DigitsValue(a + b) == DigitsValue(a) * Pow10(|b|) + DigitsValue(b)
    decreases |b|
  {
    assert AllDigits(a + b);
    if b == [] {
      assert a + b == a;
    } else {
      var b' := b[..|b| - 1];
      assert (a + b)[..|a + b| - 1] == a + b';
      assert (a + b)[|a + b| - 1] == b[|b| - 1];
      DigitsValueConcat(a, b');
      assert DigitsValue(a + b) == DigitsValue(a + b') * 10 + DigitValue(b[|b| - 1]);
      assert DigitsValue(b) == DigitsValue(b') * 10 + DigitValue(b[|b| - 1]);
      assert Pow10(|b|) == 10 * Pow10(|b'|);
      ShiftDigit(DigitsValue(a), Pow10(|b'|), DigitsValue(b'), DigitValue(b[|b| - 1]));
    }
  }

  lemma ShiftDigit(x: int, p: int, y: int, d: int)
    ensures (x * p + y) * 10 + d == x * (10 * p) + (y * 10 + d)
  {
  }

  lemma TrailerNegative(s: string, i: nat, signAllowed: bool)
    requires i <= |s| && Trailer(s, i, signAllowed) == Some(true)
    ensures exists j :: i <= j < |s| && s[j] == '-'
    decreases |s| - i
  {
    if i < |s| && IsNumberWhite(s[i]) {
      TrailerNegative(s, i + 1, signAllowed);
    }
  }

  /** Without a '-' anywhere, nothing parses to a negative value. */
  lemma ParseDecimalNoMinus(s: string)
    requires '-' !in s
    ensures ParseDecimal(s).Some? ==> ParseDecimal(s).value >= 0.0
  {
    var a := WhiteRun(s, 0);
    if a < |s| && IsSign(s[a]) {
      assert s[a] != '-';
      ParseDigitsNoMinus(s, a + 1, false);
    } else {
      ParseDigitsNoMinus(s, a, true);
    }
  }

  lemma ParseDigitsNoMinus(s: string, b: nat, signAllowed: bool)
    requires b <= |s| && '-' !in s
    ensures ParseDigits(s, b, signAllowed, false).Some? ==> ParseDigits(s, b, signAllowed, false).value >= 0.0
  {
    var d1 := Run(s, b, Digits);
    if b + d1 < |s| && s[b + d1] == '.' {
      FinishNoMinus(s, b + d1 + 1 + Run(s, b + d1 + 1, Digits), signAllowed);
    } else {
      FinishNoMinus(s, b + d1, signAllowed);
    }
  }

  lemma FinishNoMinus(s: string, e: nat, signAllowed: bool)
    requires e <= |s| && '-' !in s
    ensures forall m :: m >= 0.0 && Finish(s, e, signAllowed, false, m).Some? ==> Finish(s, e, signAllowed, false, m).value >= 0.0
  {
    if Trailer(s, e, signAllowed) == Some(true) {
      TrailerNegative(s, e, signAllowed);
    }
  }

  /** A string that is all digits with `p` more digits after a decimal point parses to its
      value. */
  lemma ParseFixedPoint(d: string, p: string)
    requires |d| > 0 && AllDigits(d) && AllDigits(p)
    requires Magnitude(DigitsValue(d), DigitsValue(p), |p|) <= MaxDecimal
    ensures ParseDecimal(d + "." + p) == Some(Magnitude(DigitsValue(d), DigitsValue(p), |p|))
  {
    var s := d + "." + p;
    FixedPointPieces(d, p);
    assert ParseDecimal(s) == ParseDigits(s, 0, true, false);
    assert Trailer(s, |s|, true) == Some(false);
  }

  lemma FixedPointPieces(d: string, p: string)
    requires |d| > 0 && AllDigits(d) && AllDigits(p)
    ensures var s := d + "." + p;
            && WhiteRun(s, 0) == 0 && !IsSign(s[0])
            && Run(s, 0, Digits) == |d| && s[|d|] == '.' && Run(s, |d| + 1, Digits) == |p|
            && (forall j :: 0 <= j < |d| ==> IsDigit(s[j]))
            && (forall j :: |d| + 1 <= j < |s| ==> IsDigit(s[j]))
            && DigitsAt(s, 0, |d|) == DigitsValue(d)
            && DigitsAt(s, |d| + 1, |p|) == DigitsValue(p)
  {
    var s := d + "." + p;
    assert s[0] == d[0] && s[|d|] == '.';
    DigitsIn(s, 0, d);
    DigitsIn(s, |d| + 1, p);
  }

  /** The digits `t` sit in `s` at `i`, followed by a non-digit or the end. */
  lemma DigitsIn(s: string, i: nat, t: string)
    requires AllDigits(t) && i + |t| <= |s| && s[i..i + |t|] == t
    requires i + |t| == |s| || !IsDigit(s[i + |t|])
    ensures Run(s, i, Digits) == |t|
    ensures forall j :: i <= j < i + |t| ==> IsDigit(s[j])
    ensures DigitsAt(s, i, |t|) == DigitsValue(t)
  {
    forall j | i <= j < i + |t| ensures s[j] == t[j - i] && IsDigit(s[j]) {
      assert s[i..i + |t|][j - i] == s[j];
    }
    RunAtLeast(s, i, Digits, |t|);
    assert DigitsAt(s, i, |t|) == DigitsValue(s[i..i + |t|]);
  }

  /** A string of digits parses to its value. */
  lemma ParseInteger(d: string)
    requires |d| > 0 && AllDigits(d)
    requires DigitsValue(d) as real <= MaxDecimal
    ensures ParseDecimal(d) == Some(DigitsValue(d) as real)
  {
    assert WhiteRun(d, 0) == 0;
    RunAtLeast(d, 0, Digits, |d|);
    assert d[0..|d|] == d;
    assert Trailer(d, |d|, true) == Some(false);
  }

  /** A string with no digit never parses. */
  lemma ParseNeedsDigit(s: string)
    requires forall i :: 0 <= i < |s| ==> !IsDigit(s[i])
    ensures ParseDecimal(s).None?
  {
  }
}
