/** `PlateNumberExtractor`: the vehicle plate, taken from the "Plaka :" label, from the text
    just after a plate keyword, or from anywhere in the text. Every candidate is cleaned
    (spaces removed, upper-cased), checked, and written in the "34 ABC 123" form. */
module PlateNumberExtractor {
  import opened Wrappers
  import opened Text
  import opened Regex
  import opened FieldExtractor
  import opened RegexPatterns

  /** The confidence of a plate from the label or from a keyword's neighbourhood. */
  const LabelledConfidence: real := 0.95

  /** The confidence of a plate found by scanning the whole text. */
  const ScanConfidence: real := 0.9

  /** How many characters after a keyword the proximity stage reads. */
  const ProximityWindow: nat := 50

  /** The keywords of the proximity stage, in the order they are tried. */
  const PlateKeywords: seq<string> := ["Plaka No", "Plaka", "Plate No"]

  // ---------------------------------------------------------------- validation and formatting

  /** `IsValidTurkishPlate`: six to nine characters, the first two of them digits. */
  predicate IsValidTurkishPlate(p: string) {
    6 <= |p| <= 9 && IsDigit(p[0]) && IsDigit(p[1])
  }

  /** A candidate as every stage cleans it: `Replace(" ", "").ToUpper()`. */
  function Clean(v: string): (c: string)
    ensures |c| <= |v| && ' ' !in c
  {
    var r := RemoveChar(v, ' ');
    var c := ToUpper(r);
    assert forall i :: 0 <= i < |c| ==> c[i] != ' ' by {
      forall i | 0 <= i < |c| ensures c[i] != ' ' {
        assert r[i] in r;
      }
    }
    c
  }

  /** The plate after `FormatPlate`'s first step: a leading '0' followed by a digit (a
      three-digit province code such as "016") is dropped. */
  function StripLeadingZero(p: string): (q: string)
    requires p != "0"
  {
    if |p| > 0 && p[0] == '0' && IsDigit(p[1]) then p[1..] else p
  }

  /** The position of the first digit of `s` from `i` on. */
  function FirstDigit(s: string, i: nat): (r: Option<nat>)
    decreases |s| - i
    ensures r.Some? ==> i <= r.value < |s| && IsDigit(s[r.value])
    ensures r.Some? ==> forall j :: i <= j < r.value ==> !IsDigit(s[j])
    ensures r.None? ==> forall j :: i <= j < |s| ==> !IsDigit(s[j])
  {
    if i >= |s| then None
    else if IsDigit(s[i]) then Some(i)
    else FirstDigit(s, i + 1)
  }

  /** The plate is written with spaces when, after the leading zero is gone, it has at least
      seven characters and the part after the two-digit code starts with a non-digit and
      holds a digit. */
  predicate Spaced(q: string) {
    |q| >= 7 && FirstDigit(q, 2).Some? && FirstDigit(q, 2).value > 2
  }

  /** What `FormatPlate` returns: the code, the letters and the numbers separated by single
      spaces when `Spaced`, otherwise the plate without its leading zero. */
  function FormattedPlate(p: string): (r: string)
    requires p != "0"
  {
    var q := StripLeadingZero(p);
    if Spaced(q) then
      var d := FirstDigit(q, 2).value;
      q[..2] + " " + q[2..d] + " " + q[d..]
    else q
  }

  /** `FormatPlate`: the plate is reassigned without its leading zero, then a loop looks for
      the first digit after the province code. `plate[1]` is read whenever the plate starts
      with '0', so the one-character plate "0" is outside its domain. */
  method FormatPlate(plate: string) returns (r: string)
    requires plate != "0"
    ensures r == FormattedPlate(plate)
  {
    var p := plate;
    if |p| > 0 && p[0] == '0' && IsDigit(p[1]) {
      p := p[1..];
    }
    if |p| >= 7 {
      var ilKodu := p[..2];
      var remaining := p[2..];
      var digitStart := 0;
      var i := 0;
      while i < |remaining|
        invariant 0 <= i <= |remaining|
        invariant digitStart == 0
        invariant forall j :: 0 <= j < i ==> !IsDigit(remaining[j])
        invariant FirstDigit(p, 2) == FirstDigit(p, 2 + i)
      {
        if IsDigit(remaining[i]) {
          digitStart := i;
          break;
        }
        i := i + 1;
      }
      if digitStart > 0 {
        assert FirstDigit(p, 2) == Some(2 + digitStart);
        assert remaining[..digitStart] == p[2..2 + digitStart];
        assert remaining[digitStart..] == p[2 + digitStart..];
        return ilKodu + " " + remaining[..digitStart] + " " + remaining[digitStart..];
      }
      assert !Spaced(p);
    }
    return p;
  }

  // ---------------------------------------------------------------- properties of the format

  /** Exactly one leading zero goes, and only in front of a digit. */
  lemma StripLeadingZeroSpec(p: string)
    requires p != "0"
    ensures StripLeadingZero(p) != p <==> |p| >= 2 && p[0] == '0' && IsDigit(p[1])
    ensures StripLeadingZero(p) != p ==> [p[0]] + StripLeadingZero(p) == p
  {
    if |p| >= 2 && p[0] == '0' && IsDigit(p[1]) {
      assert |StripLeadingZero(p)| == |p| - 1;
    }
  }

  /** Deleting the two separators of a spaced plate leaves its three parts joined. */
  lemma RemoveSeparators(code: string, letters: string, numbers: string)
    requires ' ' !in code && ' ' !in letters && ' ' !in numbers
    ensures RemoveChar(code + " " + letters + " " + numbers, ' ') == code + letters + numbers
  {
    var sp := " ";
    assert RemoveChar(sp, ' ') == [] by {
      assert sp[1..] == [];
    }
    RemoveAbsent(code, ' ');
    RemoveAbsent(letters, ' ');
    RemoveAbsent(numbers, ' ');
    var x1 := code + sp;
    RemoveCharConcat(code, sp, ' ');
    assert RemoveChar(x1, ' ') == code;
    var x2 := x1 + letters;
    RemoveCharConcat(x1, letters, ' ');
    assert RemoveChar(x2, ' ') == code + letters;
    var x3 := x2 + sp;
    RemoveCharConcat(x2, sp, ' ');
    assert RemoveChar(x3, ' ') == code + letters;
    RemoveCharConcat(x3, numbers, ' ');
  }

  /** Deleting the spaces of the formatted plate gives back the cleaned candidate without its
      leading zero. */
  lemma FormatPlateRoundTrip(p: string)
    requires p != "0" && ' ' !in p
    ensures RemoveChar(FormattedPlate(p), ' ') == StripLeadingZero(p)
  {
    var q := StripLeadingZero(p);
    assert ' ' !in q by {
      if q != p {
        assert forall i :: 0 <= i < |q| ==> q[i] == p[i + 1];
      }
    }
    if Spaced(q) {
      var d := FirstDigit(q, 2).value;
      var code, letters, numbers := q[..2], q[2..d], q[d..];
      assert q == code + letters + numbers;
      assert ' ' !in code && ' ' !in letters && ' ' !in numbers by {
        assert forall x :: x in code || x in letters || x in numbers ==> x in q;
      }
      RemoveSeparators(code, letters, numbers);
    } else {
      RemoveAbsent(q, ' ');
    }
  }

  /** A valid plate, once formatted, still has five to nine characters other than spaces and
      starts with a digit: only a leading zero can go. */
  lemma FormattedValidPlate(c: string)
    requires IsValidTurkishPlate(c) && ' ' !in c
    ensures var q := RemoveChar(FormattedPlate(c), ' ');
            5 <= |q| <= 9 && IsDigit(q[0])
  {
    FormatPlateRoundTrip(c);
    StripLeadingZeroSpec(c);
  }

  /** The spaced form is the two-digit code, a space, the letters (at least one, no digit),
      a space and the rest, which starts with the first digit; a plate that is not
      `Spaced` is returned without spaces. */
  lemma FormattedPlateShape(p: string)
    requires p != "0"
    ensures var q := StripLeadingZero(p);
            Spaced(q) <==> |q| >= 7 && !IsDigit(q[2]) && exists j :: 2 <= j < |q| && IsDigit(q[j])
    ensures var q := StripLeadingZero(p);
            Spaced(q) ==> exists d :: 2 < d < |q| && IsDigit(q[d])
                                      && (forall j :: 2 <= j < d ==> !IsDigit(q[j]))
                                      && FormattedPlate(p) == q[..2] + " " + q[2..d] + " " + q[d..]
    ensures !Spaced(StripLeadingZero(p)) ==> FormattedPlate(p) == StripLeadingZero(p)
  {
    var q := StripLeadingZero(p);
    if |q| >= 7 && !IsDigit(q[2]) && exists j :: 2 <= j < |q| && IsDigit(q[j]) {
      var j :| 2 <= j < |q| && IsDigit(q[j]);
      assert FirstDigit(q, 2).Some?;
    }
    if Spaced(q) {
      var d := FirstDigit(q, 2).value;
      assert 2 < d < |q| && IsDigit(q[d]);
    }
  }

  /** "016MA0437" loses its leading zero and is spaced as "16 MA 0437". */
  lemma FormatExample(p: string)
    requires p == "016MA0437"
    ensures FormattedPlate(p) == "16 MA 0437"
  {
    var q := StripLeadingZero(p);
    assert q == p[1..];
    assert !IsDigit(q[2]) && !IsDigit(q[3]) && IsDigit(q[4]);
    assert FirstDigit(q, 2) == Some(4);
  }

  /** The zero is dropped whatever follows the second digit, so a two-digit code from 01 to
      09 loses its zero too: "01ABC123" becomes "1A BC 123". */
  lemma SingleDigitCodeExample(p: string)
    requires p == "01ABC123"
    ensures FormattedPlate(p) == "1A BC 123"
  {
    var q := StripLeadingZero(p);
    assert q == p[1..];
    assert !IsDigit(q[2]) && !IsDigit(q[3]) && IsDigit(q[4]);
    assert FirstDigit(q, 2) == Some(4);
  }

  // ---------------------------------------------------------------- the stages

  /** A matched candidate, cleaned, when it is a valid plate. */
  function ValidCandidate(v: Option<string>): (r: Option<string>)
    ensures r.Some? ==> IsValidTurkishPlate(r.value) && ' ' !in r.value
    ensures r.Some? <==> v.Some? && IsValidTurkishPlate(Clean(v.value))
    ensures r.Some? ==> r.value == Clean(v.value)
  {
    match v
    case None => None
    case Some(s) => if IsValidTurkishPlate(Clean(s)) then Some(Clean(s)) else None
  }

  /** The first stage: group 1 of the "Plaka : <plate>" label. */
  function LabelCandidate(e: Engine, text: string): Option<string> {
    ValidCandidate(FirstGroup(e, DogaPlaka, text))
  }

  /** The proximity stage for one keyword: the first `PlateNumberPattern` match in the 50
      characters after the keyword's first case-insensitive occurrence. */
  function KeywordCandidate(text: string, keyword: string): Option<string> {
    match KeywordWindow(text, keyword, ProximityWindow)
    case None => None
    case Some(w) => ValidCandidate(PlateMatch(w))
  }

  /** The position of the first keyword from `i` on whose neighbourhood holds a valid
      plate. */
  function FirstKeywordFrom(text: string, keywords: seq<string>, i: nat): (r: Option<nat>)
    ensures r.Some? ==> i <= r.value < |keywords| && KeywordCandidate(text, keywords[r.value]).Some?
    ensures r.Some? ==> forall j :: i <= j < r.value ==> KeywordCandidate(text, keywords[j]).None?
    ensures r.None? ==> forall j :: i <= j < |keywords| ==> KeywordCandidate(text, keywords[j]).None?
  {
    FirstSome(KeywordCandidates(text, keywords), i)
  }

  /** The candidate of each keyword, in order. */
  function KeywordCandidates(text: string, keywords: seq<string>): (vs: seq<Option<string>>)
    ensures |vs| == |keywords| && forall j :: 0 <= j < |keywords| ==> vs[j] == KeywordCandidate(text, keywords[j])
  {
    seq(|keywords|, j requires 0 <= j < |keywords| => KeywordCandidate(text, keywords[j]))
  }

  /** The proximity stage: the keywords tried in order. */
  function ProximityCandidate(text: string): (r: Option<string>)
    ensures r.Some? ==> IsValidTurkishPlate(r.value) && ' ' !in r.value
  {
    match FirstKeywordFrom(text, PlateKeywords, 0)
    case Some(k) => KeywordCandidate(text, PlateKeywords[k])
    case None => None
  }

  /** The last stage: the first `PlateNumberPattern` match anywhere. */
  function ScanCandidate(text: string): Option<string> {
    ValidCandidate(PlateMatch(text))
  }

  /** What `Extract` computes. */
  function PlateExtraction(e: Engine, text: string): (r: Extraction<string>)
    ensures WellScored(r)
  {
    var labelled := LabelCandidate(e, text);
    if labelled.Some? then Found(FormattedPlate(labelled.value), LabelledConfidence)
    else
      var near := ProximityCandidate(text);
      if near.Some? then Found(FormattedPlate(near.value), LabelledConfidence)
      else
        var scanned := ScanCandidate(text);
        if scanned.Some? then Found(FormattedPlate(scanned.value), ScanConfidence)
        else NotFound()
  }

  /** `Extract`: the label, then the foreach over the keywords, then the scan, each returning
      as soon as it has a valid plate. */
  method Extract(e: Engine, text: string) returns (r: Extraction<string>)
    ensures r == PlateExtraction(e, text)
  {
    var doga := FirstGroup(e, DogaPlaka, text);
    if doga.Some? {
      var plate := Clean(doga.value);
      if IsValidTurkishPlate(plate) {
        var formatted := FormatPlate(plate);
        return Found(formatted, LabelledConfidence);
      }
    }
    for k := 0 to |PlateKeywords|
      invariant FirstKeywordFrom(text, PlateKeywords, k) == FirstKeywordFrom(text, PlateKeywords, 0)
    {
      var searchText := KeywordWindow(text, PlateKeywords[k], ProximityWindow);
      if searchText.Some? {
        var proximity := PlateMatch(searchText.value);
        if proximity.Some? {
          var plate := Clean(proximity.value);
          if IsValidTurkishPlate(plate) {
            var formatted := FormatPlate(plate);
            return Found(formatted, LabelledConfidence);
          }
        }
      }
    }
    var m := PlateMatch(text);
    if m.Some? {
      var plate := Clean(m.value);
      if IsValidTurkishPlate(plate) {
        var formatted := FormatPlate(plate);
        return Found(formatted, ScanConfidence);
      }
    }
    return NotFound();
  }

  // ---------------------------------------------------------------- properties of the stages

  /** Every plate returned is the formatted form of a valid cleaned candidate, so deleting its
      spaces gives five to nine characters starting with a digit. */
  lemma ExtractedPlateIsValid(e: Engine, text: string)
    ensures var r := PlateExtraction(e, text);
            r.value.Some? ==> exists c :: IsValidTurkishPlate(c) && ' ' !in c && r.value.value == FormattedPlate(c)
    ensures var r := PlateExtraction(e, text);
            r.value.Some? ==> var q := RemoveChar(r.value.value, ' ');
                              5 <= |q| <= 9 && IsDigit(q[0])
  {
    var r := PlateExtraction(e, text);
    if r.value.Some? {
      var c: string;
      if LabelCandidate(e, text).Some? {
        c := LabelCandidate(e, text).value;
      } else if ProximityCandidate(text).Some? {
        c := ProximityCandidate(text).value;
      } else {
        c := ScanCandidate(text).value;
      }
      assert r.value.value == FormattedPlate(c);
      FormattedValidPlate(c);
    }
  }

  /** The proximity stage takes the first keyword, in the order "Plaka No", "Plaka",
      "Plate No", whose neighbourhood holds a valid plate. */
  lemma ProximityKeywordOrder(text: string, k: nat)
    requires k < |PlateKeywords| && KeywordCandidate(text, PlateKeywords[k]).Some?
    requires forall j :: 0 <= j < k ==> KeywordCandidate(text, PlateKeywords[j]).None?
    ensures ProximityCandidate(text) == KeywordCandidate(text, PlateKeywords[k])
  {
    FirstSomeAt(KeywordCandidates(text, PlateKeywords), 0, k);
  }

  /** Only a keyword's first occurrence matters: its candidate comes from the window of at
      most 50 characters right after that occurrence, as `KeywordWindow` states. */
  lemma KeywordWindowOnly(text: string, keyword: string)
    ensures KeywordCandidate(text, keyword).Some? ==>
              && IndexOfIgnoreCase(text, keyword).Some?
              && KeywordWindow(text, keyword, ProximityWindow).Some?
              && KeywordCandidate(text, keyword) == ValidCandidate(PlateMatch(KeywordWindow(text, keyword, ProximityWindow).value))
  {
  }

  /** Nothing is found, with confidence 0, exactly when no stage has a valid candidate. */
  lemma NoValidCandidate(e: Engine, text: string)
    ensures PlateExtraction(e, text) == NotFound() <==>
              LabelCandidate(e, text).None? && ProximityCandidate(text).None? && ScanCandidate(text).None?
  {
  }

  /** The label stage wins over the other two, with confidence 0.95. */
  lemma LabelFirst(e: Engine, text: string, c: string)
    requires LabelCandidate(e, text) == Some(c)
    ensures PlateExtraction(e, text) == Found(FormattedPlate(c), LabelledConfidence)
  {
  }

  /** A plate found only by the scan carries confidence 0.9. */
  lemma ScanLast(e: Engine, text: string, c: string)
    requires LabelCandidate(e, text).None? && ProximityCandidate(text).None?
    requires ScanCandidate(text) == Some(c)
    ensures PlateExtraction(e, text) == Found(FormattedPlate(c), ScanConfidence)
  {
  }
}
