/** `PolicyNumberExtractor`: the policy number, from nine sources tried in turn; the first
    that yields a number decides it and its confidence. */
module PolicyNumberExtractor {
  import opened Wrappers
  import opened Text
  import opened Regex
  import opened FieldExtractor
  import opened RegexPatterns

  /** The confidence of the five insurer-specific labels. */
  const InsurerConfidence: real := 0.95

  /** The confidence of `PolicyNumberPattern` and of a prefixed number near a keyword. */
  const GenericConfidence: real := 0.9

  /** The confidence of a bare digit run near a keyword and of the table look-ahead. */
  const FallbackConfidence: real := 0.85

  /** How many characters, from the keyword on, the proximity stage reads. */
  const ProximityWindow: nat := 150

  /** The keywords of the proximity stage, in the order they are tried. */
  const PolicyKeywords: seq<string> := ["Poliçe No", "Police No", "POLİÇE NO", "Poliçe Numara", "Policy No"]

  // ---------------------------------------------------------------- the proximity patterns

  /** The fewest and the most digits `\d{6,20}` takes. */
  const MinDigits: nat := 6
  const MaxDigits: nat := 20

  /** `\d{6,20}` at `i`: the length it matches, greedily. */
  function DigitsAt(s: string, i: nat): (r: Option<nat>)
    requires i <= |s|
    ensures r.Some? ==> MinDigits <= r.value <= MaxDigits && i + r.value <= |s| && r.value <= Run(s, i, Digits)
    ensures r.None? <==> Run(s, i, Digits) < MinDigits
  {
    var n := Run(s, i, Digits);
    if n < MinDigits then None else Some(if n < MaxDigits then n else MaxDigits)
  }

  /** `(?:-\d+)*` from `e`, greedily: each '-' followed by a run of digits. */
  function DashGroups(s: string, e: nat): (r: nat)
    requires e <= |s|
    decreases |s| - e
    ensures e <= r <= |s|
    ensures forall j :: e <= j < r ==> s[j] == '-' || IsDigit(s[j])
  {
    if e < |s| && s[e] == '-' && Run(s, e + 1, Digits) >= 1 then
      var n := Run(s, e + 1, Digits);
      RunChars(s, e + 1, Digits);
      DashGroups(s, e + 1 + n)
    else e
  }

  /** `[A-Z]?-?\d{6,20}(?:-\d+)*` at `i`: the length it matches. The letter and the dash are
      taken when present; giving either back cannot help, since neither is a digit. */
  function PrefixedAt(s: string, i: nat): (r: Option<nat>)
    requires i <= |s|
    ensures r.Some? ==> i + r.value <= |s| && r.value >= MinDigits
    ensures r.Some? ==> forall j :: i <= j < i + r.value ==> IsUpperAscii(s[j]) || s[j] == '-' || IsDigit(s[j])
  {
    var j := if i < |s| && IsUpperAscii(s[i]) then i + 1 else i;
    var k := if j < |s| && s[j] == '-' then j + 1 else j;
    match DigitsAt(s, k)
    case None => None
    case Some(n) =>
      RunChars(s, k, Digits);
      var e := DashGroups(s, k + n);
      Some(e - i)
  }

  /** The leftmost position from `from` on where `PrefixedAt` matches. */
  function FirstPrefixed(s: string, from: nat): (r: Option<Span>)
    requires from <= |s|
    decreases |s| - from
    ensures r.Some? ==> from <= r.value.start <= |s| && PrefixedAt(s, r.value.start) == Some(r.value.len)
    ensures r.Some? ==> forall j :: from <= j < r.value.start ==> PrefixedAt(s, j).None?
    ensures r.None? ==> forall j :: from <= j <= |s| ==> PrefixedAt(s, j).None?
  {
    match PrefixedAt(s, from)
    case Some(n) => Some(Span(from, n))
    case None => if from == |s| then None else FirstPrefixed(s, from + 1)
  }

  /** `Regex.Match(w, @"[A-Z]?-?\d{6,20}(?:-\d+)*").Value`, if it matches. */
  function PrefixedMatch(w: string): (r: Option<string>)
    ensures r.Some? ==> |r.value| >= MinDigits
  {
    match FirstPrefixed(w, 0)
    case None => None
    case Some(m) => Some(Slice(w, m))
  }

  /** The leftmost position from `from` on where `\d{6,20}` matches. */
  function FirstDigits(s: string, from: nat): (r: Option<Span>)
    requires from <= |s|
    decreases |s| - from
    ensures r.Some? ==> from <= r.value.start <= |s| && DigitsAt(s, r.value.start) == Some(r.value.len)
    ensures r.None? ==> forall j :: from <= j <= |s| ==> DigitsAt(s, j).None?
  {
    match DigitsAt(s, from)
    case Some(n) => Some(Span(from, n))
    case None => if from == |s| then None else FirstDigits(s, from + 1)
  }

  /** `Regex.Match(w, @"\d{6,20}").Value`, if it matches. */
  function DigitsMatch(w: string): (r: Option<string>)
    ensures r.Some? ==> MinDigits <= |r.value| <= MaxDigits && AllDigits(r.value)
  {
    match FirstDigits(w, 0)
    case None => None
    case Some(m) =>
      RunChars(w, m.start, Digits);
      var v := Slice(w, m);
      assert forall j :: 0 <= j < |v| ==> v[j] == w[m.start + j];
      Some(v)
  }

  /** Where six digits start, the prefixed pattern matches too: a digit is neither the
      optional letter nor the optional dash. */
  lemma DigitsArePrefixed(s: string, i: nat)
    requires i <= |s| && DigitsAt(s, i).Some?
    ensures PrefixedAt(s, i).Some?
  {
    assert i < |s| && IsDigit(s[i]);
  }

  /** Whenever `\d{6,20}` matches, the prefixed pattern matches at the same place or earlier,
      with at least six characters: the digits-only branch of the proximity stage is never
      taken. */
  lemma DigitsOnlyUnreachable(w: string)
    ensures DigitsMatch(w).Some? ==> PrefixedMatch(w).Some? && |PrefixedMatch(w).value| >= MinDigits
  {
    var d := FirstDigits(w, 0);
    if d.Some? {
      DigitsArePrefixed(w, d.value.start);
      assert FirstPrefixed(w, 0).Some?;
    }
  }

  /** "T-382492524-0-0" is matched whole by the prefixed pattern. */
  lemma PrefixedExample(w: string)
    requires w == "T-382492524-0-0"
    ensures PrefixedAt(w, 0) == Some(|w|)
  {
    assert Run(w, 2, Digits) == 9 by {
      RunAtLeast(w, 2, Digits, 9);
    }
    assert Run(w, 12, Digits) == 1 by {
      RunAtLeast(w, 12, Digits, 1);
    }
    assert Run(w, 14, Digits) == 1 by {
      RunAtLeast(w, 14, Digits, 1);
    }
    assert DashGroups(w, 11) == 15 by {
      assert DashGroups(w, 15) == 15;
      assert DashGroups(w, 13) == 15;
    }
  }

  // ---------------------------------------------------------------- the stages

  /** Group 1 of the first match of one of the five insurer-specific labels. */
  function LabelStage(e: Engine, p: Pattern, text: string): Extraction<string> {
    match FirstGroup(e, p, text)
    case None => NotFound()
    case Some(g) => Found(g, InsurerConfidence)
  }

  /** `PolicyNumberPattern`: group 1, trimmed, accepted with 6 to 30 characters. */
  function GenericStage(e: Engine, text: string): Extraction<string> {
    match FirstGroup(e, PolicyNumberLabel, text)
    case None => NotFound()
    case Some(g) =>
      var n := Trim(g);
      if 6 <= |n| <= 30 then Found(n, GenericConfidence) else NotFound()
  }

  /** The proximity stage for one keyword: in the 150 characters from the keyword's first
      case-insensitive occurrence, a prefixed number of at least six characters, else a run
      of 6 to 20 digits. */
  function KeywordStage(text: string, keyword: string): (r: Extraction<string>)
    ensures WellScored(r)
  {
    match KeywordSpan(text, keyword, ProximityWindow)
    case None => NotFound()
    case Some(w) =>
      var prefixed := PrefixedMatch(w);
      if prefixed.Some? && |prefixed.value| >= 6 then Found(prefixed.value, GenericConfidence)
      else
        var number := DigitsMatch(w);
        if number.Some? then Found(number.value, FallbackConfidence) else NotFound()
  }

  /** What each keyword's window yields, in the order of the keywords. */
  function KeywordStages(text: string, keywords: seq<string>): (rs: seq<Extraction<string>>)
    ensures |rs| == |keywords|
    ensures forall i :: 0 <= i < |keywords| ==> rs[i] == KeywordStage(text, keywords[i])
  {
    seq(|keywords|, i requires 0 <= i < |keywords| => KeywordStage(text, keywords[i]))
  }

  /** The proximity stage: the foreach over the keywords, where a keyword whose window yields
      no number hands over to the next. */
  function ProximityStage(text: string): (r: Extraction<string>)
    ensures WellScored(r)
  {
    var rs := KeywordStages(text, PolicyKeywords);
    FirstFound(rs)
  }

  /** The table stage: a number followed by a code and a date, as a whole match. */
  function TableStage(e: Engine, text: string): Extraction<string> {
    match First(e, PolicyNumberTable, text)
    case None => NotFound()
    case Some(m) => Found(m.value, FallbackConfidence)
  }

  /** `Extract`: the first stage that yields a number decides it and its confidence. */
  function Extract(e: Engine, text: string): (r: Extraction<string>)
    ensures WellScored(r)
  {
    var sertifika := LabelStage(e, SertifikaNumarasi, text);
    if sertifika.value.Some? then sertifika else
    var suretidir := LabelStage(e, PoliceninSuretidir, text);
    if suretidir.value.Some? then suretidir else
    var karayollari := LabelStage(e, KarayollariPolicy, text);
    if karayollari.value.Some? then karayollari else
    var doga := LabelStage(e, DogaPoliceNo, text);
    if doga.value.Some? then doga else
    var neova := LabelStage(e, NeovaYenilemeNo, text);
    if neova.value.Some? then neova else
    var generic := GenericStage(e, text);
    if generic.value.Some? then generic else
    var near := ProximityStage(text);
    if near.value.Some? then near else
    TableStage(e, text)
  }

  // ---------------------------------------------------------------- properties of the stages

  /** The five insurer-specific labels come first, in this order, and the first that
      matches decides the number, with confidence 0.95. */
  lemma InsurerLabelsFirst(e: Engine, text: string)
    ensures LabelStage(e, SertifikaNumarasi, text).value.Some? ==>
              Extract(e, text) == LabelStage(e, SertifikaNumarasi, text)
    ensures NoMatch(e, SertifikaNumarasi, text) && LabelStage(e, PoliceninSuretidir, text).value.Some? ==>
              Extract(e, text) == LabelStage(e, PoliceninSuretidir, text)
    ensures NoMatch(e, SertifikaNumarasi, text) && NoMatch(e, PoliceninSuretidir, text)
            && LabelStage(e, KarayollariPolicy, text).value.Some? ==>
              Extract(e, text) == LabelStage(e, KarayollariPolicy, text)
    ensures NoMatch(e, SertifikaNumarasi, text) && NoMatch(e, PoliceninSuretidir, text) && NoMatch(e, KarayollariPolicy, text)
            && LabelStage(e, DogaPoliceNo, text).value.Some? ==>
              Extract(e, text) == LabelStage(e, DogaPoliceNo, text)
    ensures NoMatch(e, SertifikaNumarasi, text) && NoMatch(e, PoliceninSuretidir, text) && NoMatch(e, KarayollariPolicy, text)
            && NoMatch(e, DogaPoliceNo, text) && LabelStage(e, NeovaYenilemeNo, text).value.Some? ==>
              Extract(e, text) == LabelStage(e, NeovaYenilemeNo, text)
  {
  }

  /** A label stage finds a number exactly when its pattern matches, and returns group 1. */
  lemma LabelStageSpec(e: Engine, p: Pattern, text: string)
    ensures LabelStage(e, p, text).value.None? <==> NoMatch(e, p, text)
    ensures !NoMatch(e, p, text) ==> LabelStage(e, p, text) == Found(Group(e(p, text)[0], 1), InsurerConfidence)
  {
  }

  /** No insurer-specific label matches. */
  predicate NoInsurerLabel(e: Engine, text: string) {
    && NoMatch(e, SertifikaNumarasi, text) && NoMatch(e, PoliceninSuretidir, text)
    && NoMatch(e, KarayollariPolicy, text) && NoMatch(e, DogaPoliceNo, text)
    && NoMatch(e, NeovaYenilemeNo, text)
  }

  /** After the labels, `PolicyNumberPattern`, then the keywords, then the table. */
  lemma LaterStagesInOrder(e: Engine, text: string)
    requires NoInsurerLabel(e, text)
    ensures GenericStage(e, text).value.Some? ==> Extract(e, text) == GenericStage(e, text)
    ensures GenericStage(e, text).value.None? && ProximityStage(text).value.Some? ==>
              Extract(e, text) == ProximityStage(text)
    ensures GenericStage(e, text).value.None? && ProximityStage(text).value.None? ==>
              Extract(e, text) == TableStage(e, text)
  {
  }

  /** Nothing is found, with confidence 0, exactly when no stage finds a number. */
  lemma NothingFound(e: Engine, text: string)
    ensures Extract(e, text) == NotFound() <==>
              && NoInsurerLabel(e, text)
              && GenericStage(e, text).value.None? && ProximityStage(text).value.None?
              && NoMatch(e, PolicyNumberTable, text)
  {
  }

  /** The proximity stage takes the first keyword, in list order, whose window yields a
      number, and yields nothing exactly when no keyword's window does. */
  lemma ProximityKeywordOrder(text: string, k: nat)
    requires k < |PolicyKeywords| && KeywordStage(text, PolicyKeywords[k]).value.Some?
    requires forall j :: 0 <= j < k ==> KeywordStage(text, PolicyKeywords[j]).value.None?
    ensures ProximityStage(text) == KeywordStage(text, PolicyKeywords[k])
  {
    var rs := KeywordStages(text, PolicyKeywords);
    assert FirstHit(rs, k);
    FirstFoundAt(rs, k);
  }

  /** The proximity stage yields nothing exactly when no keyword's window yields a number. */
  lemma ProximityNone(text: string)
    ensures ProximityStage(text).value.None? <==>
              forall j :: 0 <= j < |PolicyKeywords| ==> KeywordStage(text, PolicyKeywords[j]).value.None?
  {
    var rs := KeywordStages(text, PolicyKeywords);
    FirstFoundSpec(rs);
  }

  /** A number near a keyword always carries confidence 0.9. */
  lemma ProximityConfidenceIsGeneric(text: string, keyword: string)
    ensures KeywordStage(text, keyword).value.Some? ==> KeywordStage(text, keyword).confidence == GenericConfidence
  {
    match KeywordSpan(text, keyword, ProximityWindow)
    case None =>
    case Some(w) => DigitsOnlyUnreachable(w);
  }

  /** The proximity stage reads only the window from the first occurrence of a keyword, the
      one `KeywordSpan` describes. */
  lemma KeywordSpanOnly(text: string, keyword: string)
    ensures KeywordStage(text, keyword).value.Some? ==>
              && IndexOfIgnoreCase(text, keyword).Some?
              && KeywordSpan(text, keyword, ProximityWindow).Some?
              && var w := KeywordSpan(text, keyword, ProximityWindow).value;
                 PrefixedMatch(w).Some? && KeywordStage(text, keyword) == Found(PrefixedMatch(w).value, GenericConfidence)
  {
    match KeywordSpan(text, keyword, ProximityWindow)
    case None =>
    case Some(w) => DigitsOnlyUnreachable(w);
  }

  /** The engine keeps `PolicyNumberPattern`'s promise: group 1 of its first match is 6 to 20
      digits. */
  predicate CapturesDigitRun(e: Engine, text: string) {
    |e(PolicyNumberLabel, text)| > 0 ==>
      var g := Group(e(PolicyNumberLabel, text)[0], 1);
      6 <= |g| <= 20 && AllDigits(g)
  }

  /** Given that promise, the 6-to-30 length check of the generic stage always passes, and the
      capture is returned unchanged. */
  lemma GenericCheckAlwaysHolds(e: Engine, text: string)
    requires CapturesDigitRun(e, text)
    ensures GenericStage(e, text).value == FirstGroup(e, PolicyNumberLabel, text)
  {
    match FirstGroup(e, PolicyNumberLabel, text)
    case None =>
    case Some(g) =>
      assert IsDigit(g[0]) && IsDigit(g[|g| - 1]);
      TrimIdentity(g);
  }
}
