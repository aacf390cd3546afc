/** `NameExtractor`: the insured's name, from four sources tried in turn. A candidate is
    trimmed and checked by `IsValidName`; the name returned is the candidate after
    `NormalizeName`. */
module NameExtractor {
  import opened Wrappers
  import opened Text
  import opened Regex
  import opened FieldExtractor
  import opened RegexPatterns

  /** The confidence of a name on the line after "Sigortalı", and of one after
      "Adı Soyadı / Ünvanı". */
  const LabelledConfidence: real := 0.90

  /** The confidence of a `NamePattern` match. */
  const PatternConfidence: real := 0.85

  /** The confidence of a name found near a keyword. */
  const ProximityConfidence: real := 0.75

  /** How many characters, from the keyword on, the proximity stage reads. */
  const ProximityWindow: nat := 200

  /** The keywords of the proximity stage, in the order they are tried. */
  const NameKeywords: seq<string> := ["Adı Soyadı", "Adõ Soyadõ", "İsim", "Sigortalı", "Ad Soyad", "Unvanı", "Unvanõ"]

  /** Abbreviations and address words that are never part of a name. `IsValidName` rejects
      a word equal to one of them and `NormalizeName` deletes them; the deletion tries them
      in this order. */
  const Denylist: seq<string> := ["TC", "VD", "VKN", "LTD", "ŞTİ", "A.Ş", "LİMİTED", "UAVT",
    "İLETİŞİM", "İLETISIM", "ADRESİ", "ADRESI", "MAH", "MAHALLE", "MAHALLESİ", "CAD", "CADDE",
    "CADDESİ", "SOK", "SOKAK", "SOKAĞI", "CEP", "TELEFON", "TELEFONU", "SABİT", "SABIT"]

  // ---------------------------------------------------------------- validation

  /** The word equals a denylist entry, ignoring case. */
  predicate IsDenied(word: string) {
    exists j :: 0 <= j < |Denylist| && EqualsIgnoreCase(word, Denylist[j])
  }

  /** `IsValidName`: two to five space-separated words, each at least two characters long,
      none of them a denylist entry. */
  predicate IsValidName(name: string) {
    var parts := SplitRemoveEmpty(name, ' ');
    && 2 <= |parts| <= 5
    && (forall i :: 0 <= i < |parts| ==> |parts[i]| >= 2)
    && (forall i :: 0 <= i < |parts| ==> !IsDenied(parts[i]))
  }

  /** A string without a space is at most one word. */
  lemma UnspacedIsOneWord(s: string)
    requires ' ' !in s
    ensures |SplitRemoveEmpty(s, ' ')| <= 1
  {
    if s != [] {
      assert s[RunUntil(s, ' ')..] == [];
    }
  }

  /** A valid name has a space in it: a single word is never accepted. */
  lemma ValidNameHasSpace(name: string)
    requires IsValidName(name)
    ensures ' ' in name
  {
    if ' ' !in name {
      UnspacedIsOneWord(name);
    }
  }

  /** A word from the denylist, in any case, makes the name invalid. */
  lemma DeniedWordInvalidates(name: string, i: nat)
    requires i < |SplitRemoveEmpty(name, ' ')| && IsDenied(SplitRemoveEmpty(name, ' ')[i])
    ensures !IsValidName(name)
  {
  }

  /** "AHMET" alone is not a name. */
  lemma SingleWordExample(name: string)
    requires name == "AHMET"
    ensures !IsValidName(name)
  {
    UnspacedIsOneWord(name);
  }

  // ---------------------------------------------------------------- normalisation

  /** `\b` at position `i`: a word character on exactly one side. */
  predicate WordBoundary(s: string, i: nat)
    requires i <= |s|
  {
    (i > 0 && IsWordChar(s[i - 1])) != (i < |s| && IsWordChar(s[i]))
  }

  /** `k` occurs at `i`, ignoring case. */
  predicate MatchesAt(s: string, i: nat, k: string) {
    i + |k| <= |s| && forall j :: 0 <= j < |k| ==> Upper(s[i + j]) == Upper(k[j])
  }

  /** Every word of the list has at least one character. */
  predicate NonEmptyWords(words: seq<string>) {
    forall j :: 0 <= j < |words| ==> |words[j]| > 0
  }

  /** The denylist has no empty entry, so each deletion moves the scan forward. */
  lemma DenylistNonEmpty()
    ensures NonEmptyWords(Denylist)
  {
  }

  /** `\b(k)\b` matches at `i`. */
  predicate DeniedAt(s: string, i: nat, k: string)
    requires i <= |s|
  {
    MatchesAt(s, i, k) && WordBoundary(s, i) && WordBoundary(s, i + |k|)
  }

  /** The first alternative, from the `j`-th on, of the pattern `\b(w0|w1|...)\b` that
      matches at `i`: the order of the alternation decides which one a position takes. */
  function DeniedFrom(s: string, words: seq<string>, i: nat, j: nat): (r: Option<nat>)
    requires i <= |s|
    decreases |words| - j
    ensures r.Some? ==> j <= r.value < |words| && DeniedAt(s, i, words[r.value])
    ensures r.Some? ==> forall m :: j <= m < r.value ==> !DeniedAt(s, i, words[m])
    ensures r.None? ==> forall m :: j <= m < |words| ==> !DeniedAt(s, i, words[m])
  {
    if j >= |words| then None
    else if DeniedAt(s, i, words[j]) then Some(j)
    else DeniedFrom(s, words, i, j + 1)
  }

  /** `Regex.Replace(s, @"\b(w0|w1|...)\b", "", RegexOptions.IgnoreCase)` from position `i`
      on: each whole-word, case-insensitive occurrence of a listed word is deleted, scanning
      left to right and going on after each deletion. */
  function RemoveWords(s: string, words: seq<string>, i: nat): (r: string)
    requires i <= |s| && NonEmptyWords(words)
    decreases |s| - i
    ensures |r| <= |s| - i
    ensures forall c :: c in r ==> c in s[i..]
  {
    if i == |s| then []
    else
      match DeniedFrom(s, words, i, 0)
      case Some(j) =>
        var n := |words[j]|;
        var r := RemoveWords(s, words, i + n);
        assert forall c :: c in s[i + n..] ==> c in s[i..] by {
          assert s[i + n..] == s[i..][n..];
        }
        r
      case None =>
        var rest := RemoveWords(s, words, i + 1);
        assert s[i..] == [s[i]] + s[i + 1..];
        [s[i]] + rest
  }

  /** No two white-space characters are adjacent, and every white-space character is a
      space. */
  predicate SingleSpaced(s: string) {
    && (forall i :: 0 <= i < |s| ==> IsWhiteSpace(s[i]) ==> s[i] == ' ')
    && (forall i :: 0 <= i < |s| ==> !WhitePairAt(s, i))
  }

  /** Positions `i` and `i + 1` both hold white space. */
  predicate WhitePairAt(s: string, i: nat) {
    i + 1 < |s| && IsWhiteSpace(s[i]) && IsWhiteSpace(s[i + 1])
  }

  /** The characters of `s` that are not white space, in order. */
  function Visible(s: string): (r: string)
    ensures forall c :: c in r ==> c in s && !IsWhiteSpace(c)
  {
    if s == [] then []
    else if IsWhiteSpace(s[0]) then Visible(s[1..])
    else [s[0]] + Visible(s[1..])
  }

  /** The second `Regex.Replace` of `NormalizeName`: every run of white space becomes one
      space. */
  function CollapseWhite(s: string): (r: string)
    decreases |s|
    ensures SingleSpaced(r)
    ensures r == [] <==> s == []
    ensures r != [] ==> (IsWhiteSpace(r[0]) <==> IsWhiteSpace(s[0]))
    ensures r != [] ==> (IsWhiteSpace(r[|r| - 1]) <==> IsWhiteSpace(s[|s| - 1]))
  {
    if s == [] then []
    else if IsWhiteSpace(s[0]) then
      var n := LeadingWhite(s, 0);
      LeadingWhiteChars(s, 0);
      var rest := CollapseWhite(s[n..]);
      ConsSingleSpaced(' ', rest);
      [' '] + rest
    else
      var rest := CollapseWhite(s[1..]);
      ConsSingleSpaced(s[0], rest);
      [s[0]] + rest
  }

  /** A character put in front of a single-spaced string keeps it single-spaced unless it is
      white space other than a space, or white space before white space. */
  lemma ConsSingleSpaced(c: char, rest: string)
    requires SingleSpaced(rest)
    requires IsWhiteSpace(c) ==> c == ' ' && (rest == [] || !IsWhiteSpace(rest[0]))
    ensures SingleSpaced([c] + rest)
  {
    var r := [c] + rest;
    forall i | 0 <= i < |r| ensures !WhitePairAt(r, i) {
      if i > 0 {
        assert !WhitePairAt(rest, i - 1);
      }
    }
  }

  /** Collapsing runs of white space keeps every other character, in order. */
  lemma {:induction false} CollapseKeepsVisible(s: string)
    decreases |s|
    ensures Visible(CollapseWhite(s)) == Visible(s)
  {
    if s != [] {
      if IsWhiteSpace(s[0]) {
        var n := LeadingWhite(s, 0);
        LeadingWhiteChars(s, 0);
        CollapseKeepsVisible(s[n..]);
        WhitePrefixInvisible(s, n);
        assert ([' '] + CollapseWhite(s[n..]))[1..] == CollapseWhite(s[n..]);
      } else {
        CollapseKeepsVisible(s[1..]);
        assert ([s[0]] + CollapseWhite(s[1..]))[1..] == CollapseWhite(s[1..]);
      }
    }
  }

  /** A prefix of white space contributes nothing visible. */
  lemma {:induction false} WhitePrefixInvisible(s: string, n: nat)
    requires n <= |s| && forall j :: 0 <= j < n ==> IsWhiteSpace(s[j])
    decreases n
    ensures Visible(s) == Visible(s[n..])
  {
    if n > 0 {
      WhitePrefixInvisible(s[1..], n - 1);
      assert s[1..][n - 1..] == s[n..];
    }
  }

  /** A single-spaced string is its own collapse. */
  lemma {:induction false} CollapseSingleSpaced(s: string)
    requires SingleSpaced(s)
    decreases |s|
    ensures CollapseWhite(s) == s
  {
    if s != [] {
      SliceSingleSpaced(s, 1, |s|);
      assert s[1..|s|] == s[1..];
      if IsWhiteSpace(s[0]) {
        assert LeadingWhite(s, 0) == 1 by {
          assert !WhitePairAt(s, 0);
        }
      }
      CollapseSingleSpaced(s[1..]);
    }
  }

  /** A slice of a single-spaced string is single-spaced. */
  lemma SliceSingleSpaced(s: string, a: nat, b: nat)
    requires a <= b <= |s| && SingleSpaced(s)
    ensures SingleSpaced(s[a..b])
  {
    var t := s[a..b];
    assert forall i :: 0 <= i < |t| ==> t[i] == s[a + i];
    forall i | 0 <= i < |t| ensures !WhitePairAt(t, i) {
      assert !WhitePairAt(s, a + i);
    }
  }

  /** With no listed word to delete from `i` on, the deletion changes nothing. */
  lemma {:induction false} RemoveWordsNone(s: string, words: seq<string>, i: nat)
    requires i <= |s| && NonEmptyWords(words)
    requires forall p :: i <= p < |s| ==> DeniedFrom(s, words, p, 0).None?
    decreases |s| - i
    ensures RemoveWords(s, words, i) == s[i..]
  {
    if i < |s| {
      RemoveWordsNone(s, words, i + 1);
      assert s[i..] == [s[i]] + s[i + 1..];
    }
  }

  /** `NormalizeName` with the words to delete as a parameter: the listed words deleted,
      white space collapsed, then trimmed. The result neither starts nor ends with white
      space and is single-spaced. */
  function NormalizeWith(name: string, words: seq<string>): (r: string)
    requires NonEmptyWords(words)
    ensures |r| <= |name|
    ensures r == [] || (!IsWhiteSpace(r[0]) && !IsWhiteSpace(r[|r| - 1]))
    ensures SingleSpaced(r)
  {
    var removed := RemoveWords(name, words, 0);
    var collapsed := CollapseWhite(removed);
    var a := LeadingWhite(collapsed, 0);
    SliceSingleSpaced(collapsed, a, TrimmedEnd(collapsed, a, |collapsed|));
    assert |collapsed| <= |removed| by {
      CollapseShorter(removed);
    }
    Trim(collapsed)
  }

  /** `NormalizeName`: the denylist words deleted, white space collapsed, then trimmed. */
  function NormalizeName(name: string): (r: string)
    ensures |r| <= |name|
    ensures r == [] || (!IsWhiteSpace(r[0]) && !IsWhiteSpace(r[|r| - 1]))
    ensures SingleSpaced(r)
  {
    DenylistNonEmpty();
    NormalizeWith(name, Denylist)
  }

  /** Collapsing never lengthens the text. */
  lemma {:induction false} CollapseShorter(s: string)
    decreases |s|
    ensures |CollapseWhite(s)| <= |s|
  {
    if s != [] {
      if IsWhiteSpace(s[0]) {
        CollapseShorter(s[LeadingWhite(s, 0)..]);
      } else {
        CollapseShorter(s[1..]);
      }
    }
  }

  /** A trimmed, single-spaced name with no listed word in it is left as it is. */
  lemma NormalizeIdentity(name: string, words: seq<string>)
    requires NonEmptyWords(words)
    requires name == [] || (!IsWhiteSpace(name[0]) && !IsWhiteSpace(name[|name| - 1]))
    requires SingleSpaced(name)
    requires forall p :: 0 <= p < |name| ==> DeniedFrom(name, words, p, 0).None?
    ensures NormalizeWith(name, words) == name
  {
    calc {
      NormalizeWith(name, words);
      Trim(CollapseWhite(RemoveWords(name, words, 0)));
      { RemoveWordsNone(name, words, 0);
        assert name[0..] == name; }
      Trim(CollapseWhite(name));
      { CollapseSingleSpaced(name); }
      Trim(name);
      { TrimIdentity(name); }
      name;
    }
  }

  /** Normalisation changes only white space after the deletion of the listed words. */
  lemma NormalizeKeepsVisible(name: string, words: seq<string>)
    requires NonEmptyWords(words)
    ensures Visible(NormalizeWith(name, words)) == Visible(RemoveWords(name, words, 0))
  {
    var removed := RemoveWords(name, words, 0);
    var collapsed := CollapseWhite(removed);
    CollapseKeepsVisible(removed);
    TrimVisible(collapsed);
  }

  /** Trimming drops only white space. */
  lemma TrimVisible(s: string)
    ensures Visible(Trim(s)) == Visible(s)
  {
    var a := LeadingWhite(s, 0);
    var e := TrimmedEnd(s, a, |s|);
    LeadingWhiteChars(s, 0);
    WhitePrefixInvisible(s, a);
    TrimmedEndWhite(s, a, |s|);
    WhiteSuffixInvisible(s[a..], e - a);
    assert s[a..][..e - a] == s[a..e];
  }

  /** What `TrimmedEnd` drops is white space. */
  lemma {:induction false} TrimmedEndWhite(s: string, lo: nat, e: nat)
    requires lo <= e <= |s|
    decreases e
    ensures forall j :: TrimmedEnd(s, lo, e) <= j < e ==> IsWhiteSpace(s[j])
  {
    if e > lo && IsWhiteSpace(s[e - 1]) {
      TrimmedEndWhite(s, lo, e - 1);
    }
  }

  /** A suffix of white space contributes nothing visible. */
  lemma {:induction false} WhiteSuffixInvisible(s: string, n: nat)
    requires n <= |s| && forall j :: n <= j < |s| ==> IsWhiteSpace(s[j])
    decreases |s|
    ensures Visible(s) == Visible(s[..n])
  {
    if n < |s| {
      if n == 0 {
        AllWhiteInvisible(s);
        assert s[..n] == [];
      } else {
        var t := s[..n];
        WhiteSuffixInvisible(s[1..], n - 1);
        assert s[1..][..n - 1] == t[1..];
        assert t[0] == s[0];
        if IsWhiteSpace(s[0]) {
          assert Visible(s) == Visible(s[1..]) && Visible(t) == Visible(t[1..]);
        } else {
          assert Visible(s) == [s[0]] + Visible(s[1..]) && Visible(t) == [s[0]] + Visible(t[1..]);
        }
      }
    } else {
      assert s[..n] == s;
    }
  }

  /** A string of white space is invisible. */
  lemma {:induction false} AllWhiteInvisible(s: string)
    requires forall j :: 0 <= j < |s| ==> IsWhiteSpace(s[j])
    decreases |s|
    ensures Visible(s) == []
  {
    if s != [] {
      AllWhiteInvisible(s[1..]);
    }
  }

  // ---------------------------------------------------------------- the stages

  /** A matched candidate, trimmed, when it is a valid name. */
  function ValidCandidate(v: Option<string>): (r: Option<string>)
    ensures r.Some? <==> v.Some? && IsValidName(Trim(v.value))
    ensures r.Some? ==> r.value == Trim(v.value)
  {
    match v
    case None => None
    case Some(s) => if IsValidName(Trim(s)) then Some(Trim(s)) else None
  }

  /** The first stage: the line after "Sigortalı". */
  function OwnLineCandidate(e: Engine, text: string): Option<string> {
    ValidCandidate(FirstGroup(e, DogaSigortali, text))
  }

  /** The second stage: the title "Adı Soyadı / Ünvanı". */
  function TitleCandidate(e: Engine, text: string): Option<string> {
    ValidCandidate(FirstGroup(e, AdiSoyadiUnvani, text))
  }

  /** The third stage: `NamePattern`. */
  function PatternCandidate(e: Engine, text: string): Option<string> {
    ValidCandidate(FirstGroup(e, NameLabel, text))
  }

  /** The proximity stage for one keyword: a capitalised word group after a ':' or white
      space, within the 200 characters from the keyword's first case-insensitive
      occurrence. */
  function KeywordCandidate(e: Engine, text: string, keyword: string): Option<string> {
    match KeywordSpan(text, keyword, ProximityWindow)
    case None => None
    case Some(w) => ValidCandidate(FirstGroup(e, NameAfterLabel, w))
  }

  /** The position of the first keyword from `i` on that gives a valid name. */
  function FirstKeywordFrom(e: Engine, text: string, keywords: seq<string>, i: nat): (r: Option<nat>)
    ensures r.Some? ==> i <= r.value < |keywords| && KeywordCandidate(e, text, keywords[r.value]).Some?
    ensures r.Some? ==> forall j :: i <= j < r.value ==> KeywordCandidate(e, text, keywords[j]).None?
    ensures r.None? ==> forall j :: i <= j < |keywords| ==> KeywordCandidate(e, text, keywords[j]).None?
  {
    FirstSome(KeywordCandidates(e, text, keywords), i)
  }

  /** The candidate of each keyword, in order. */
  function KeywordCandidates(e: Engine, text: string, keywords: seq<string>): (vs: seq<Option<string>>)
    ensures |vs| == |keywords| && forall j :: 0 <= j < |keywords| ==> vs[j] == KeywordCandidate(e, text, keywords[j])
  {
    seq(|keywords|, j requires 0 <= j < |keywords| => KeywordCandidate(e, text, keywords[j]))
  }

  /** The proximity stage: the keywords tried in order. */
  function ProximityCandidate(e: Engine, text: string): (r: Option<string>)
    ensures r.Some? ==> IsValidName(r.value)
  {
    match FirstKeywordFrom(e, text, NameKeywords, 0)
    case Some(k) => KeywordCandidate(e, text, NameKeywords[k])
    case None => None
  }

  /** What `Extract` computes. */
  function NameExtraction(e: Engine, text: string): (r: Extraction<string>)
    ensures WellScored(r)
  {
    var ownLine := OwnLineCandidate(e, text);
    if ownLine.Some? then Found(NormalizeName(ownLine.value), LabelledConfidence)
    else
      var title := TitleCandidate(e, text);
      if title.Some? then Found(NormalizeName(title.value), LabelledConfidence)
      else
        var pattern := PatternCandidate(e, text);
        if pattern.Some? then Found(NormalizeName(pattern.value), PatternConfidence)
        else
          var near := ProximityCandidate(e, text);
          if near.Some? then Found(NormalizeName(near.value), ProximityConfidence)
          else NotFound()
  }

  /** The foreach of `Extract` over the keywords: the first valid candidate, trimmed. */
  method ScanKeywords(e: Engine, text: string) returns (name: Option<string>)
    ensures name == ProximityCandidate(e, text)
  {
    for k := 0 to |NameKeywords|
      invariant FirstKeywordFrom(e, text, NameKeywords, k) == FirstKeywordFrom(e, text, NameKeywords, 0)
    {
      var searchText := KeywordSpan(text, NameKeywords[k], ProximityWindow);
      if searchText.Some? {
        var nameMatch := FirstGroup(e, NameAfterLabel, searchText.value);
        if nameMatch.Some? {
          var candidate := Trim(nameMatch.value);
          if IsValidName(candidate) {
            return Some(candidate);
          }
        }
      }
    }
    return None;
  }

  /** `Extract`: three single matches, then the foreach over the keywords, each stage
      returning as soon as a trimmed candidate passes `IsValidName`. */
  method Extract(e: Engine, text: string) returns (r: Extraction<string>)
    ensures r == NameExtraction(e, text)
  {
    var doga := FirstGroup(e, DogaSigortali, text);
    if doga.Some? {
      var name := Trim(doga.value);
      if IsValidName(name) {
        return Found(NormalizeName(name), LabelledConfidence);
      }
    }
    var title := FirstGroup(e, AdiSoyadiUnvani, text);
    if title.Some? {
      var name := Trim(title.value);
      if IsValidName(name) {
        return Found(NormalizeName(name), LabelledConfidence);
      }
    }
    var m := FirstGroup(e, NameLabel, text);
    if m.Some? {
      var name := Trim(m.value);
      if IsValidName(name) {
        return Found(NormalizeName(name), PatternConfidence);
      }
    }
    var near := ScanKeywords(e, text);
    if near.Some? {
      return Found(NormalizeName(near.value), ProximityConfidence);
    }
    return NotFound();
  }

  // ---------------------------------------------------------------- properties of the stages

  /** Every name returned is the normal form of a candidate that passed `IsValidName`, so it
      is trimmed and single-spaced. */
  lemma ExtractedNameValid(e: Engine, text: string)
    ensures var r := NameExtraction(e, text);
            r.value.Some? ==> exists c :: IsValidName(c) && r.value.value == NormalizeName(c)
    ensures var r := NameExtraction(e, text);
            r.value.Some? ==> var n := r.value.value;
                              SingleSpaced(n) && (n == [] || (!IsWhiteSpace(n[0]) && !IsWhiteSpace(n[|n| - 1])))
  {
    var r := NameExtraction(e, text);
    if r.value.Some? {
      var c: string;
      if OwnLineCandidate(e, text).Some? {
        c := OwnLineCandidate(e, text).value;
      } else if TitleCandidate(e, text).Some? {
        c := TitleCandidate(e, text).value;
      } else if PatternCandidate(e, text).Some? {
        c := PatternCandidate(e, text).value;
      } else {
        c := ProximityCandidate(e, text).value;
      }
      assert IsValidName(c) && r.value.value == NormalizeName(c);
    }
  }

  /** The stages in order: the first with a valid candidate decides the name and the
      confidence, and an invalid candidate hands over to the next stage. */
  lemma StageOrder(e: Engine, text: string)
    ensures OwnLineCandidate(e, text).Some? ==>
              NameExtraction(e, text) == Found(NormalizeName(OwnLineCandidate(e, text).value), LabelledConfidence)
    ensures OwnLineCandidate(e, text).None? && TitleCandidate(e, text).Some? ==>
              NameExtraction(e, text) == Found(NormalizeName(TitleCandidate(e, text).value), LabelledConfidence)
    ensures OwnLineCandidate(e, text).None? && TitleCandidate(e, text).None? && PatternCandidate(e, text).Some? ==>
              NameExtraction(e, text) == Found(NormalizeName(PatternCandidate(e, text).value), PatternConfidence)
    ensures OwnLineCandidate(e, text).None? && TitleCandidate(e, text).None? && PatternCandidate(e, text).None?
            && ProximityCandidate(e, text).Some? ==>
              NameExtraction(e, text) == Found(NormalizeName(ProximityCandidate(e, text).value), ProximityConfidence)
  {
  }

  /** Nothing is found, with confidence 0, exactly when no stage has a valid candidate. */
  lemma NoValidCandidate(e: Engine, text: string)
    ensures NameExtraction(e, text) == NotFound() <==>
              && OwnLineCandidate(e, text).None? && TitleCandidate(e, text).None?
              && PatternCandidate(e, text).None? && ProximityCandidate(e, text).None?
  {
  }

  /** The proximity stage takes the first keyword, in list order, that gives a valid name. */
  lemma ProximityKeywordOrder(e: Engine, text: string, k: nat)
    requires k < |NameKeywords| && KeywordCandidate(e, text, NameKeywords[k]).Some?
    requires forall j :: 0 <= j < k ==> KeywordCandidate(e, text, NameKeywords[j]).None?
    ensures ProximityCandidate(e, text) == KeywordCandidate(e, text, NameKeywords[k])
  {
    FirstSomeAt(KeywordCandidates(e, text, NameKeywords), 0, k);
  }

  /** Only a keyword's first occurrence matters: the name is read from the 200 characters
      starting there, the window `KeywordSpan` describes. */
  lemma KeywordSpanOnly(e: Engine, text: string, keyword: string)
    ensures KeywordCandidate(e, text, keyword).Some? ==>
              && IndexOfIgnoreCase(text, keyword).Some?
              && KeywordSpan(text, keyword, ProximityWindow).Some?
              && KeywordCandidate(e, text, keyword) ==
                 ValidCandidate(FirstGroup(e, NameAfterLabel, KeywordSpan(text, keyword, ProximityWindow).value))
  {
  }
}
