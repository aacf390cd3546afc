/** The part of the .NET string API the extractors rely on, over `seq<char>`.
    Character classes are those of the documents the service reads: ASCII digits,
    ASCII and Turkish letters, and the usual white-space characters. */
module Text {
  import opened Wrappers

  predicate IsDigit(c: char) { '0' <= c <= '9' }

  predicate IsUpperAscii(c: char) { 'A' <= c <= 'Z' }

  predicate IsAsciiLetter(c: char) { 'A' <= c <= 'Z' || 'a' <= c <= 'z' }

  /** Turkish letters outside ASCII, both cases. */
  const TurkishLetters: string := "çğıöşüõÇĞİÖŞÜÕ"

  predicate IsLetter(c: char) { IsAsciiLetter(c) || c in TurkishLetters }

  /** The regex class `\w`: letters, digits and the underscore. */
  predicate IsWordChar(c: char) { IsLetter(c) || IsDigit(c) || c == '_' }

  /** `char.IsWhiteSpace` and the regex class `\s`: space, U+0009..U+000D, U+0085, U+00A0. */
  predicate IsWhiteSpace(c: char) {
    c == ' ' || '\t' <= c <= '\r' || c == '\U{0085}' || c == '\U{00A0}'
  }

  predicate AllDigits(s: string) { forall i :: 0 <= i < |s| ==> IsDigit(s[i]) }

  /** The value of a decimal digit. */
  function DigitValue(c: char): (v: int)
    requires IsDigit(c)
    ensures 0 <= v <= 9
  {
    c as int - '0' as int
  }

  /** `ToUpperInvariant` on one character: ASCII and the Turkish lower-case letters that have
      an invariant upper case. The dotless 'ı' has none and is kept, as .NET keeps it. */
  function Upper(c: char): (u: char)
    ensures IsDigit(c) <==> IsDigit(u)
    ensures IsWhiteSpace(c) <==> IsWhiteSpace(u)
    ensures IsWordChar(c) <==> IsWordChar(u)
  {
    if 'a' <= c <= 'z' then (c as int - 32) as char
    else if c == 'ç' then 'Ç'
    else if c == 'ğ' then 'Ğ'
    else if c == 'ö' then 'Ö'
    else if c == 'ş' then 'Ş'
    else if c == 'ü' then 'Ü'
    else if c == 'õ' then 'Õ'
    else c
  }

  /** `ToUpperInvariant`. */
  function ToUpper(s: string): (u: string)
    ensures |u| == |s|
    ensures forall i :: 0 <= i < |s| ==> u[i] == Upper(s[i])
  {
    seq(|s|, i requires 0 <= i < |s| => Upper(s[i]))
  }

  /** `string.IsNullOrWhiteSpace` for a non-null string. */
  predicate IsBlank(s: string) { forall i :: 0 <= i < |s| ==> IsWhiteSpace(s[i]) }

  /** `string.IsNullOrWhiteSpace` for a nullable string. */
  predicate IsNullOrWhiteSpace(s: Option<string>) { s.None? || IsBlank(s.value) }

  /** `string.IsNullOrEmpty` for a nullable string. */
  predicate IsNullOrEmpty(s: Option<string>) { s.None? || s.value == "" }

  predicate StartsWith(s: string, p: string) { |p| <= |s| && s[..|p|] == p }

  /** A one-character prefix is the first character. */
  lemma StartsWithChar(s: string, c: char)
    ensures StartsWith(s, [c]) <==> s != [] && s[0] == c
  {
    if s != [] && s[0] == c {
      assert s[..1] == [c];
    }
  }

  predicate OccursAt(s: string, k: string, i: nat) { i + |k| <= |s| && s[i..i + |k|] == k }

  function IndexOfFrom(s: string, k: string, i: nat): (r: Option<nat>)
    decreases |s| - i
    ensures r.Some? ==> i <= r.value && OccursAt(s, k, r.value)
    ensures r.Some? ==> forall j :: i <= j < r.value ==> !OccursAt(s, k, j)
    ensures r.None? ==> forall j :: i <= j ==> !OccursAt(s, k, j)
  {
    if i + |k| > |s| then None
    else if OccursAt(s, k, i) then Some(i)
    else IndexOfFrom(s, k, i + 1)
  }

  /** Ordinal `s.IndexOf(k)`: the first position where `k` occurs, `None` for -1. */
  function IndexOf(s: string, k: string): Option<nat> { IndexOfFrom(s, k, 0) }

  /** Ordinal `s.Contains(k)`. */
  predicate Contains(s: string, k: string) { IndexOf(s, k).Some? }

  lemma ContainsIff(s: string, k: string)
    ensures Contains(s, k) <==> exists i :: 0 <= i && OccursAt(s, k, i)
  {
    if !Contains(s, k) {
      assert forall j :: 0 <= j ==> !OccursAt(s, k, j);
    }
  }

  /** `s.IndexOf(k, StringComparison.OrdinalIgnoreCase)`: both sides compared upper-cased. */
  function IndexOfIgnoreCase(s: string, k: string): (r: Option<nat>)
    ensures r.Some? ==> r.value + |k| <= |s|
  {
    IndexOf(ToUpper(s), ToUpper(k))
  }

  /** `a.Equals(b, StringComparison.OrdinalIgnoreCase)`: equal once both are upper-cased. */
  predicate EqualsIgnoreCase(a: string, b: string) { ToUpper(a) == ToUpper(b) }

  predicate ContainsChar(s: string, c: char) { c in s }

  /** `s.LastIndexOf(c)`: the last position holding `c`, or -1. */
  function LastIndexOf(s: string, c: char): (r: int)
    ensures -1 <= r < |s|
    ensures r >= 0 ==> s[r] == c
    ensures forall j :: r < j < |s| ==> s[j] != c
    ensures r == -1 <==> c !in s
  {
    if s == [] then -1
    else if s[|s| - 1] == c then |s| - 1
    else LastIndexOf(s[..|s| - 1], c)
  }

  /** The last `c` is at `k` when `c` is at `k` and nowhere after it. */
  lemma LastIndexOfAt(s: string, c: char, k: nat)
    requires k < |s| && s[k] == c
    requires forall j :: k < j < |s| ==> s[j] != c
    ensures LastIndexOf(s, c) == k
  {
  }

  /** The last `c` is before `k` when `c` is nowhere from `k` on. */
  lemma LastIndexOfBefore(s: string, c: char, k: nat)
    requires forall j :: k <= j < |s| ==> s[j] != c
    ensures LastIndexOf(s, c) < k
  {
  }

  /** `s.Replace(c.ToString(), "")`: every `c` removed, the rest kept in order. */
  function RemoveChar(s: string, c: char): (r: string)
    ensures |r| <= |s|
    ensures c !in r
    ensures forall x :: x != c ==> (x in r <==> x in s)
  {
    if s == [] then [] else (if s[0] == c then [] else [s[0]]) + RemoveChar(s[1..], c)
  }

  lemma {:induction false} RemoveCharConcat(a: string, b: string, c: char)
    ensures RemoveChar(a + b, c) == RemoveChar(a, c) + RemoveChar(b, c)
    decreases |a|
  {
    if a == [] {
      assert a + b == b;
    } else {
      assert (a + b)[0] == a[0] && (a + b)[1..] == a[1..] + b;
      RemoveCharConcat(a[1..], b, c);
    }
  }

  /** Removing a character the string does not hold changes nothing. */
  lemma {:induction false} RemoveAbsent(s: string, c: char)
    requires c !in s
    ensures RemoveChar(s, c) == s
    decreases |s|
  {
    if s != [] {
      assert s == [s[0]] + s[1..];
      RemoveAbsent(s[1..], c);
    }
  }

  /** `s.Replace(a, b)` on characters. */
  function ReplaceChar(s: string, a: char, b: char): (r: string)
    ensures |r| == |s|
    ensures forall i :: 0 <= i < |s| ==> r[i] == if s[i] == a then b else s[i]
    ensures a != b ==> a !in r
  {
    var r := seq(|s|, i requires 0 <= i < |s| => if s[i] == a then b else s[i]);
    assert a != b ==> forall i :: 0 <= i < |r| ==> r[i] != a;
    r
  }

  /** The number of white-space characters from `i` on. */
  function LeadingWhite(s: string, i: nat): (n: nat)
    requires i <= |s|
    decreases |s| - i
    ensures i + n <= |s|
    ensures i + n == |s| || !IsWhiteSpace(s[i + n])
  {
    if i < |s| && IsWhiteSpace(s[i]) then 1 + LeadingWhite(s, i + 1) else 0
  }

  /** Where `s[..e]` ends once its trailing white space is dropped, going no lower than `lo`. */
  function TrimmedEnd(s: string, lo: nat, e: nat): (r: nat)
    requires lo <= e <= |s|
    decreases e
    ensures lo <= r <= e
    ensures r == lo || !IsWhiteSpace(s[r - 1])
  {
    if e > lo && IsWhiteSpace(s[e - 1]) then TrimmedEnd(s, lo, e - 1) else e
  }

  /** `s.Trim()`: the white space at the start removed, then the white space at the end. */
  function Trim(s: string): (r: string)
    ensures |r| <= |s|
    ensures r == [] || (!IsWhiteSpace(r[0]) && !IsWhiteSpace(r[|r| - 1]))
  {
    var a := LeadingWhite(s, 0);
    s[a..TrimmedEnd(s, a, |s|)]
  }

  /** Trimming keeps a slice of the string, so it adds no character. */
  lemma TrimKeepsChars(s: string)
    ensures forall c :: c in Trim(s) ==> c in s
  {
    var a := LeadingWhite(s, 0);
    var e := TrimmedEnd(s, a, |s|);
    forall c | c in s[a..e] ensures c in s {
      var k :| 0 <= k < e - a && s[a..e][k] == c;
      assert s[a + k] == c;
    }
  }

  /** A string that neither starts nor ends with white space is its own trim. */
  lemma TrimIdentity(s: string)
    requires s == [] || (!IsWhiteSpace(s[0]) && !IsWhiteSpace(s[|s| - 1]))
    ensures Trim(s) == s
  {
    assert s[0..|s|] == s;
  }

  lemma {:induction false} LeadingWhiteChars(s: string, i: nat)
    requires i <= |s|
    ensures forall j :: i <= j < i + LeadingWhite(s, i) ==> IsWhiteSpace(s[j])
    decreases |s| - i
  {
    if i < |s| && IsWhiteSpace(s[i]) { LeadingWhiteChars(s, i + 1); }
  }

  lemma {:induction false} TrimmedEndAbove(s: string, lo: nat, e: nat)
    requires lo < e <= |s| && !IsWhiteSpace(s[lo])
    ensures TrimmedEnd(s, lo, e) > lo
    decreases e
  {
    if e - 1 > lo && IsWhiteSpace(s[e - 1]) { TrimmedEndAbove(s, lo, e - 1); }
  }

  /** A string is blank exactly when trimming leaves nothing. */
  lemma TrimBlank(s: string)
    ensures Trim(s) == [] <==> IsBlank(s)
  {
    var a := LeadingWhite(s, 0);
    LeadingWhiteChars(s, 0);
    if a < |s| {
      TrimmedEndAbove(s, a, |s|);
    }
  }

  /** The length of the run of characters other than `sep` at the start of `s`. */
  function RunUntil(s: string, sep: char): (n: nat)
    ensures n <= |s|
    ensures forall i :: 0 <= i < n ==> s[i] != sep
    ensures n == |s| || s[n] == sep
  {
    if s == [] || s[0] == sep then 0 else 1 + RunUntil(s[1..], sep)
  }

  /** `s.Split(sep, StringSplitOptions.RemoveEmptyEntries)`. */
  function SplitRemoveEmpty(s: string, sep: char): (parts: seq<string>)
    decreases |s|
    ensures forall i :: 0 <= i < |parts| ==> |parts[i]| > 0 && sep !in parts[i]
  {
    if s == [] then []
    else if s[0] == sep then SplitRemoveEmpty(s[1..], sep)
    else
      var n := RunUntil(s, sep);
      [s[..n]] + SplitRemoveEmpty(s[n..], sep)
  }

  /** The parts put back together with one `sep` between neighbours. */
  function Join(parts: seq<string>, sep: char): string {
    if parts == [] then []
    else if |parts| == 1 then parts[0]
    else parts[0] + [sep] + Join(parts[1..], sep)
  }

  /** `s` with the runs of `sep` at both ends dropped and every other run of `sep` shortened
      to a single `sep`, character by character. */
  function Squeeze(s: string, sep: char): string
    decreases |s|
  {
    if s == [] then []
    else if s[0] == sep then Squeeze(s[1..], sep)
    else
      var rest := Squeeze(s[1..], sep);
      [s[0]] + (if |s| > 1 && s[1] == sep && rest != [] then [sep] else []) + rest
  }

  /** Splitting with empty entries removed and joining the parts again collapses the runs of
      the separator and trims them off the ends: together with the parts being non-empty
      and free of `sep`, this fixes every part. */
  lemma {:induction false} SplitJoin(s: string, sep: char)
    ensures Join(SplitRemoveEmpty(s, sep), sep) == Squeeze(s, sep)
    decreases |s|
  {
    if s != [] {
      if s[0] == sep {
        SplitJoin(s[1..], sep);
      } else {
        var n := RunUntil(s, sep);
        var rest := SplitRemoveEmpty(s[n..], sep);
        SplitJoin(s[n..], sep);
        SqueezeWord(s, sep, n);
        JoinEmpty(rest, sep);
        assert SplitRemoveEmpty(s, sep) == [s[..n]] + rest;
        assert ([s[..n]] + rest)[1..] == rest;
      }
    }
  }

  /** The parts join to nothing exactly when there are none. */
  lemma JoinEmpty(parts: seq<string>, sep: char)
    requires forall i :: 0 <= i < |parts| ==> |parts[i]| > 0
    ensures Join(parts, sep) == [] <==> parts == []
  {
  }

  /** A leading word of `n` characters other than `sep` is kept whole by `Squeeze`, followed by
      one `sep` when something follows it. */
  lemma {:induction false} SqueezeWord(s: string, sep: char, n: nat)
    requires 0 < n <= |s| && (forall i :: 0 <= i < n ==> s[i] != sep) && (n == |s| || s[n] == sep)
    ensures Squeeze(s, sep) == s[..n] + (if Squeeze(s[n..], sep) != [] then [sep] + Squeeze(s[n..], sep) else [])
    decreases n
  {
    if n > 1 {
      SqueezeWord(s[1..], sep, n - 1);
      assert s[1..][n - 1..] == s[n..];
      assert s[..n] == [s[0]] + s[1..][..n - 1];
    } else {
      assert s[..1] == [s[0]];
      assert s[1..] == s[n..];
    }
  }

  /** `s.Split(k).Length - 1` for a non-empty `k`: the non-overlapping occurrences of `k`,
      found from left to right. */
  function CountOccurrences(s: string, k: string): (n: nat)
    requires |k| > 0
    decreases |s|
    ensures n == 0 <==> !Contains(s, k)
  {
    match IndexOf(s, k)
    case None => 0
    case Some(i) => 1 + CountOccurrences(s[i + |k|..], k)
  }

  /** Where the search for entry `j` of `ps` starts in a scan that resumes after each match:
      the start of the string, or the end of the previous entry's occurrence of `k`. */
  function ResumeAt(ps: seq<nat>, k: string, j: nat): nat
    requires j <= |ps|
  {
    if j == 0 then 0 else ps[j - 1] + |k|
  }

  /** `ps` are the occurrences of `k` in `s` that a left-to-right scan finds when it resumes
      after each match: each is the first occurrence at or after the previous one's end, and
      nothing occurs at or after the last one's end. */
  ghost predicate ScanOccurrences(s: string, k: string, ps: seq<nat>) {
    ScanHits(s, k, ps) && ScanGaps(s, k, ps) && ScanTail(s, k, ps)
  }

  /** Each entry is an occurrence at or after the end of the previous one. */
  predicate ScanHits(s: string, k: string, ps: seq<nat>) {
    forall j :: 0 <= j < |ps| ==> ResumeAt(ps, k, j) <= ps[j] && OccursAt(s, k, ps[j])
  }

  /** Nothing occurs between the end of one entry and the next entry. */
  ghost predicate ScanGaps(s: string, k: string, ps: seq<nat>) {
    forall j, i: nat :: 0 <= j < |ps| && ResumeAt(ps, k, j) <= i < ps[j] ==> !OccursAt(s, k, i)
  }

  /** Nothing occurs at or after the end of the last entry. */
  ghost predicate ScanTail(s: string, k: string, ps: seq<nat>) {
    forall i: nat :: ResumeAt(ps, k, |ps|) <= i ==> !OccursAt(s, k, i)
  }

  /** Every entry after the first starts at or after the end of the first one's occurrence. */
  lemma {:induction false} ScanAfterFirst(s: string, k: string, ps: seq<nat>, j: nat)
    requires ScanHits(s, k, ps) && 1 <= j < |ps|
    ensures ps[0] + |k| <= ps[j]
    decreases j
  {
    if j > 1 {
      ScanAfterFirst(s, k, ps, j - 1);
    }
  }

  lemma ScanAllAfterFirst(s: string, k: string, ps: seq<nat>)
    requires ScanHits(s, k, ps) && ps != []
    ensures forall j :: 0 <= j < |ps| - 1 ==> ps[0] + |k| <= ps[1..][j]
  {
    forall j | 0 <= j < |ps| - 1 ensures ps[0] + |k| <= ps[1..][j] {
      ScanAfterFirst(s, k, ps, j + 1);
    }
  }

  /** An occurrence in a suffix is an occurrence in the whole string, moved by the cut. */
  lemma OccursShift(s: string, k: string, m: nat, x: nat)
    requires m <= |s|
    ensures OccursAt(s[m..], k, x) <==> OccursAt(s, k, x + m)
  {
    if x + |k| <= |s| - m {
      assert s[m..][x..x + |k|] == s[x + m..x + m + |k|];
    }
  }

  /** The first entry of a scan is the first occurrence. */
  lemma ScanFirst(s: string, k: string, ps: seq<nat>, i: nat)
    requires ScanOccurrences(s, k, ps)
    requires OccursAt(s, k, i) && forall j: nat :: j < i ==> !OccursAt(s, k, j)
    ensures ps != [] && ps[0] == i
  {
    assert ResumeAt(ps, k, |ps|) > i;
    assert !OccursAt(s, k, ps[0]) || i <= ps[0];
  }

  /** Each position moved back by `m`. */
  function ShiftDown(xs: seq<nat>, m: nat): (ys: seq<nat>)
    requires forall j :: 0 <= j < |xs| ==> m <= xs[j]
    ensures |ys| == |xs|
    ensures forall j :: 0 <= j < |xs| ==> ys[j] + m == xs[j]
    decreases |xs|
  {
    if xs == [] then [] else [xs[0] - m] + ShiftDown(xs[1..], m)
  }

  /** The entries after the first, measured from the end of the first one's occurrence. */
  ghost function ScanRest(s: string, k: string, ps: seq<nat>): (qs: seq<nat>)
    requires ScanHits(s, k, ps) && ps != []
    ensures |qs| == |ps| - 1
    ensures forall j :: 0 <= j < |qs| ==> qs[j] + ps[0] + |k| == ps[j + 1]
  {
    ScanAllAfterFirst(s, k, ps);
    ShiftDown(ps[1..], ps[0] + |k|)
  }

  /** The first entry of a non-empty scan is an occurrence. */
  lemma ScanHead(s: string, k: string, ps: seq<nat>)
    requires ScanHits(s, k, ps)
    ensures |ps| > 0 ==> OccursAt(s, k, ps[0])
  {
  }

  /** Resuming in the rest of the string is resuming in the whole string, moved by the cut. */
  lemma ScanRestResume(s: string, k: string, ps: seq<nat>, j: nat)
    requires ScanHits(s, k, ps) && ps != [] && j <= |ps| - 1
    ensures ResumeAt(ScanRest(s, k, ps), k, j) + ps[0] + |k| == ResumeAt(ps, k, j + 1)
  {
  }

  lemma ScanSuffixHits(s: string, k: string, ps: seq<nat>, i: nat)
    requires ScanHits(s, k, ps) && ps != [] && ps[0] == i && i + |k| <= |s|
    ensures ScanHits(s[i + |k|..], k, ScanRest(s, k, ps))
  {
    var m := i + |k|;
    var qs := ScanRest(s, k, ps);
    forall j | 0 <= j < |qs|
      ensures ResumeAt(qs, k, j) <= qs[j] && OccursAt(s[m..], k, qs[j])
    {
      ScanRestResume(s, k, ps, j);
      OccursShift(s, k, m, qs[j]);
    }
  }

  lemma ScanSuffixGaps(s: string, k: string, ps: seq<nat>, i: nat)
    requires ScanHits(s, k, ps) && ScanGaps(s, k, ps) && ps != [] && ps[0] == i && i + |k| <= |s|
    ensures ScanGaps(s[i + |k|..], k, ScanRest(s, k, ps))
  {
    var m := i + |k|;
    var qs := ScanRest(s, k, ps);
    forall j, x: nat | 0 <= j < |qs| && ResumeAt(qs, k, j) <= x < qs[j]
      ensures !OccursAt(s[m..], k, x)
    {
      ScanRestResume(s, k, ps, j);
      OccursShift(s, k, m, x);
    }
  }

  lemma ScanSuffixTail(s: string, k: string, ps: seq<nat>, i: nat)
    requires ScanHits(s, k, ps) && ScanTail(s, k, ps) && ps != [] && ps[0] == i && i + |k| <= |s|
    ensures ScanTail(s[i + |k|..], k, ScanRest(s, k, ps))
  {
    var m := i + |k|;
    var qs := ScanRest(s, k, ps);
    forall x: nat | ResumeAt(qs, k, |qs|) <= x
      ensures !OccursAt(s[m..], k, x)
    {
      ScanRestResume(s, k, ps, |qs|);
      OccursShift(s, k, m, x);
    }
  }

  /** What a scan finds after its first entry is a scan of the rest of the string. */
  lemma ScanSuffix(s: string, k: string, ps: seq<nat>, i: nat)
    requires ScanOccurrences(s, k, ps) && ps != [] && ps[0] == i
    ensures i + |k| <= |s|
    ensures ScanOccurrences(s[i + |k|..], k, ScanRest(s, k, ps))
  {
    assert OccursAt(s, k, ps[0]);
    ScanSuffixHits(s, k, ps, i);
    ScanSuffixGaps(s, k, ps, i);
    ScanSuffixTail(s, k, ps, i);
  }

  /** A count past the first occurrence: one more than the count in the rest of the string. */
  lemma CountStep(s: string, k: string, i: nat)
    requires |k| > 0 && IndexOf(s, k) == Some(i)
    ensures i + |k| <= |s|
    ensures CountOccurrences(s, k) == 1 + CountOccurrences(s[i + |k|..], k)
  {
    assert OccursAt(s, k, i);
  }

  /** `CountOccurrences` is the number of occurrences that a scan resuming after each match
      finds, so occurrences that overlap a counted one are not counted. */
  lemma {:induction false} CountScanned(s: string, k: string, ps: seq<nat>)
    requires |k| > 0 && ScanOccurrences(s, k, ps)
    ensures CountOccurrences(s, k) == |ps|
    decreases |s|
  {
    match IndexOf(s, k)
    case None =>
      ScanHead(s, k, ps);
    case Some(i) =>
      ScanFirst(s, k, ps, i);
      ScanSuffix(s, k, ps, i);
      CountScanned(s[i + |k|..], k, ScanRest(s, k, ps));
      CountStep(s, k, i);
  }

  /** Overlapping occurrences count once: "AA" occurs at 0 and at 1 in "AAA", and is counted
      once. */
  lemma OverlapCountedOnce(s: string)
    requires s == "AAA"
    ensures CountOccurrences(s, "AA") == 1
  {
    assert OccursAt(s, "AA", 0);
    CountScanned(s, "AA", [0]);
  }
}
