/** The Turkish national identity number (T.C. Kimlik No): the check-digit rule and the
    first-valid-candidate search of `TcNoExtractor`. */
module TcNoExtractor {
  import opened Wrappers
  import opened Text
  import opened FieldExtractor
  import opened RegexPatterns

  /** The confidence of an identity number that passes the checksum. */
  const TcNoConfidence: real := 0.95

  /** C#'s `a % 10` on `int`: it differs from `a` by a multiple of 10, and a non-zero
      remainder takes the sign of the dividend. */
  function Rem10(a: int): (r: int)
    ensures -10 < r < 10 && (a - r) % 10 == 0
    ensures r != 0 ==> (r < 0 <==> a < 0)
  {
    if a >= 0 then a % 10 else -((-a) % 10)
  }

  /** The sum of the first `n` digit values. */
  function DigitSum(s: string, n: nat): (r: int)
    requires n <= |s| && AllDigits(s[..n])
    ensures 0 <= r <= 9 * n
  {
    if n == 0 then 0
    else
      assert s[..n - 1] == s[..n][..n - 1];
      assert s[n - 1] == s[..n][n - 1];
      DigitSum(s, n - 1) + DigitValue(s[n - 1])
  }

  /** The tenth-digit rule: seven times the digits at even positions 0..8 minus the digits
      at odd positions 1..7, remainder 10 taken as C# does. */
  function TenthDigitValue(s: string): int
    requires |s| == 11 && AllDigits(s)
  {
    var odd := DigitValue(s[0]) + DigitValue(s[2]) + DigitValue(s[4]) + DigitValue(s[6]) + DigitValue(s[8]);
    var even := DigitValue(s[1]) + DigitValue(s[3]) + DigitValue(s[5]) + DigitValue(s[7]);
    Rem10(odd * 7 - even)
  }

  /** The eleventh-digit rule: the sum of the first ten digits, remainder 10. */
  function EleventhDigitValue(s: string): int
    requires |s| == 11 && AllDigits(s)
  {
    assert AllDigits(s[..10]);
    DigitSum(s, 10) % 10
  }

  /** `IsValidTcNo`: eleven digits, no leading zero, and both check digits right. */
  predicate IsValidTcNo(s: string) {
    && |s| == 11
    && s[0] != '0'
    && AllDigits(s)
    && DigitValue(s[9]) == TenthDigitValue(s)
    && DigitValue(s[10]) == EleventhDigitValue(s)
  }

  /** The position of the first candidate from `i` on that passes the checksum. */
  function FirstValidFrom(candidates: seq<string>, i: nat): (r: Option<nat>)
    decreases |candidates| - i
    ensures r.Some? ==> i <= r.value < |candidates| && IsValidTcNo(candidates[r.value])
    ensures r.Some? ==> forall j :: i <= j < r.value ==> !IsValidTcNo(candidates[j])
    ensures r.None? ==> forall j :: i <= j < |candidates| ==> !IsValidTcNo(candidates[j])
  {
    if i >= |candidates| then None
    else if IsValidTcNo(candidates[i]) then Some(i)
    else FirstValidFrom(candidates, i + 1)
  }

  /** `TcNoExtractor.Extract`: the first 11-digit token of the text that passes the checksum,
      with confidence 0.95; nothing, with confidence 0, when no token passes. */
  function Extract(text: string): (r: Extraction<string>)
    ensures WellScored(r)
    ensures r.value.Some? ==> r.confidence == TcNoConfidence && IsValidTcNo(r.value.value)
    ensures r.value.Some? ==> exists i :: 0 <= i < |TcNoMatches(text)| && TcNoMatches(text)[i] == r.value.value &&
                                          forall j :: 0 <= j < i ==> !IsValidTcNo(TcNoMatches(text)[j])
    ensures r.value.None? <==> forall c :: c in TcNoMatches(text) ==> !IsValidTcNo(c)
  {
    var cs := TcNoMatches(text);
    match FirstValidFrom(cs, 0)
    case Some(i) => Found(cs[i], TcNoConfidence)
    case None => NotFound()
  }

  /** Every extracted number is eleven digits with a non-zero first digit. */
  lemma ExtractShape(text: string)
    ensures var r := Extract(text);
            r.value.Some? ==> |r.value.value| == 11 && AllDigits(r.value.value) && r.value.value[0] != '0'
  {
  }

  /** Changing one digit of a valid number always breaks the eleventh-digit rule, so no
      single wrong digit goes undetected. */
  lemma SingleDigitChangeDetected(s: string, i: nat, c: char)
    requires IsValidTcNo(s) && i < 11 && IsDigit(c) && c != s[i]
    ensures !IsValidTcNo(s[i := c])
  {
    var t := s[i := c];
    assert AllDigits(t);
    if i == 10 {
      assert t[..10] == s[..10];
      LastDigitChange(s, t);
    } else {
      EarlyDigitChange(s, t, i);
    }
  }

  lemma LastDigitChange(s: string, t: string)
    requires |s| == |t| == 11 && AllDigits(s) && AllDigits(t)
    requires s[..10] == t[..10] && s[10] != t[10]
    requires DigitValue(s[10]) == EleventhDigitValue(s)
    ensures DigitValue(t[10]) != EleventhDigitValue(t)
  {
    DigitSumSame(s, t, 10);
  }

  lemma EarlyDigitChange(s: string, t: string, i: nat)
    requires |s| == |t| == 11 && AllDigits(s) && AllDigits(t) && i < 10
    requires forall j :: 0 <= j < 11 && j != i ==> s[j] == t[j]
    requires s[i] != t[i]
    requires DigitValue(s[10]) == EleventhDigitValue(s)
    ensures DigitValue(t[10]) != EleventhDigitValue(t)
  {
    DigitSumChange(s, t, i, 10);
    var delta := DigitValue(t[i]) - DigitValue(s[i]);
    assert -10 < delta < 10 && delta != 0;
    assert DigitSum(t, 10) == DigitSum(s, 10) + delta;
    assert t[10] == s[10];
  }

  /** Replacing the digit at `i < n` moves the sum of the first `n` digits by the
      difference of the two digits. */
  lemma {:induction false} DigitSumChange(s: string, t: string, i: nat, n: nat)
    requires |s| == |t| && i < n <= |s| && AllDigits(s) && AllDigits(t)
    requires forall j :: 0 <= j < |s| && j != i ==> s[j] == t[j]
    ensures AllDigits(s[..n]) && AllDigits(t[..n])
    ensures DigitSum(t, n) - DigitSum(s, n) == DigitValue(t[i]) - DigitValue(s[i])
  {
    assert AllDigits(s[..n]) && AllDigits(t[..n]);
    if n - 1 == i {
      DigitSumSame(s, t, n - 1);
    } else {
      DigitSumChange(s, t, i, n - 1);
    }
  }

  /** Sums over a common prefix agree. */
  lemma {:induction false} DigitSumSame(s: string, t: string, n: nat)
    requires n <= |s| && n <= |t| && AllDigits(s[..n]) && s[..n] == t[..n]
    ensures AllDigits(t[..n]) && DigitSum(s, n) == DigitSum(t, n)
  {
    if n > 0 {
      assert s[..n - 1] == s[..n][..n - 1] && t[..n - 1] == t[..n][..n - 1];
      assert s[n - 1] == s[..n][n - 1] && t[n - 1] == t[..n][n - 1];
      DigitSumSame(s, t, n - 1);
    }
  }

  /** When seven times the odd-position sum falls below the even-position sum and the
      difference is not a multiple of 10, the truncated remainder is negative and no tenth
      digit can equal it. */
  lemma NegativeDifferenceRejected(s: string)
    requires |s| == 11 && AllDigits(s)
    requires var d := (DigitValue(s[0]) + DigitValue(s[2]) + DigitValue(s[4]) + DigitValue(s[6]) + DigitValue(s[8])) * 7
                    - (DigitValue(s[1]) + DigitValue(s[3]) + DigitValue(s[5]) + DigitValue(s[7]));
             d < 0 && d % 10 != 0
    ensures !IsValidTcNo(s)
  {
    var odd := DigitValue(s[0]) + DigitValue(s[2]) + DigitValue(s[4]) + DigitValue(s[6]) + DigitValue(s[8]);
    var even := DigitValue(s[1]) + DigitValue(s[3]) + DigitValue(s[5]) + DigitValue(s[7]);
    assert TenthDigitValue(s) == Rem10(odd * 7 - even);
    assert Rem10(odd * 7 - even) != 0;
  }

  /** A number that passes both rules. */
  lemma ValidExample()
    ensures IsValidTcNo("10000000078")
  {
    var s := "10000000078";
    assert AllDigits(s);
    assert DigitSum(s, 10) == 8 by {
      assert s[..10] == "1000000007";
      assert DigitSum(s, 1) == 1;
      assert DigitSum(s, 9) == DigitSum(s, 1) by {
        assert DigitSum(s, 2) == 1;
        assert DigitSum(s, 3) == 1;
        assert DigitSum(s, 4) == 1;
        assert DigitSum(s, 5) == 1;
        assert DigitSum(s, 6) == 1;
        assert DigitSum(s, 7) == 1;
        assert DigitSum(s, 8) == 1;
      }
    }
  }

  /** "19090000098": the difference is 7 - 18 = -11. A Euclidean remainder (9) would accept
      it, the truncated remainder (-1) rejects it. */
  lemma TruncatedRemainderExample()
    ensures !IsValidTcNo("19090000098")
  {
    var s := "19090000098";
    assert AllDigits(s);
    assert TenthDigitValue(s) == -1;
  }
}
