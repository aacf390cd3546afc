/** The orchestrator: runs every extractor over one document's text and fills the record. */
module ExtractorOrchestrator {
  import opened Wrappers
  import opened Text
  import opened Regex
  import opened FieldExtractor
  import opened Calendar
  import opened Models
  import CompanyDetectorService
  import DateExtractor
  import MoneyExtractor
  import PolicyNumberExtractor
  import NameExtractor
  import TcNoExtractor
  import PlateNumberExtractor

  // ---------------------------------------------------------------------------------------
  // Cancellation and endorsement documents

  /** The local `cancellationKeywords` array of `IsCancellationDocument`. */
  const CancellationKeywords: seq<string> := [
    "İPTAL", "IPTAL", "ZEYİL", "ZEYIL", "FESİH", "FESIH",
    "PLAKA DEĞİŞİKLİĞİ", "PLAKA DEGISIKLIGI", "PLAKA ZEYLİ", "PLAKA ZEYLI",
    "ZEYİL PRİM BİLGİLERİ", "ZEYIL PRIM BILGILERI"
  ]

  /** The text is not blank and its upper-cased form contains one of the keywords. */
  predicate IsCancellation(text: string, keywords: seq<string>) {
    !IsBlank(text) && exists k :: 0 <= k < |keywords| && Contains(ToUpper(text), keywords[k])
  }

  /** `IsCancellationDocument`: false for blank text, otherwise a search of the upper-cased
      text for each keyword in turn, stopping at the first one found. */
  method IsCancellationDocument(pdfText: string, keywords: seq<string>) returns (found: bool)
    ensures found <==> IsCancellation(pdfText, keywords)
  {
    if IsBlank(pdfText) {
      return false;
    }
    var normalizedText := ToUpper(pdfText);
    found := ContainsAnyKeyword(normalizedText, keywords);
  }

  /** The loop of `IsCancellationDocument`: each keyword in turn, stopping at the first one
      the text contains. */
  method ContainsAnyKeyword(upper: string, keywords: seq<string>) returns (found: bool)
    ensures found <==> exists k :: 0 <= k < |keywords| && Contains(upper, keywords[k])
  {
    for k := 0 to |keywords|
      invariant forall j :: 0 <= j < k ==> !Contains(upper, keywords[j])
    {
      if Contains(upper, keywords[k]) {
        return true;
      }
    }
    return false;
  }

  // ---------------------------------------------------------------------------------------
  // Vehicle brand and model

  /** What `ExtractVehicleInfo` returns. */
  datatype Vehicle = Vehicle(brand: Option<string>, model: Option<string>, confidence: real)

  /** `ExtractVehicleInfo`: the two groups of the first `VehicleInfoPattern` match, trimmed;
      kept only when the brand is not blank and has 2 to 30 characters. */
  function ExtractVehicleInfo(e: Engine, text: string): (v: Vehicle)
    ensures v.brand.Some? ==> 2 <= |v.brand.value| <= 30 && !IsBlank(v.brand.value)
    ensures v.brand.Some? <==> v.model.Some?
    ensures v.brand.Some? ==> v.confidence == 0.8
    ensures v.brand.None? ==> v == Vehicle(None, None, 0.0)
    ensures v.brand.Some? ==>
      (|e(VehicleInfo, text)| > 0 &&
       v.brand.value == Trim(Group(e(VehicleInfo, text)[0], 1)) &&
       v.model.value == Trim(Group(e(VehicleInfo, text)[0], 2)))
  {
    match First(e, VehicleInfo, text)
    case None => Vehicle(None, None, 0.0)
    case Some(m) =>
      if 1 + |m.groups| >= 3 then
        var brand := Trim(Group(m, 1));
        var model := Trim(Group(m, 2));
        if !IsBlank(brand) && 2 <= |brand| <= 30 then Vehicle(Some(brand), Some(model), 0.8)
        else Vehicle(None, None, 0.0)
      else Vehicle(None, None, 0.0)
  }

  /** A brand outside 2 to 30 characters after trimming is dropped, with the model. */
  lemma VehicleBrandLength(e: Engine, text: string)
    requires |e(VehicleInfo, text)| > 0
    requires var b := Trim(Group(e(VehicleInfo, text)[0], 1)); |b| < 2 || |b| > 30
    ensures ExtractVehicleInfo(e, text) == Vehicle(None, None, 0.0)
  {
  }

  // ---------------------------------------------------------------------------------------
  // Overall confidence

  /** The keys of the `fieldConfidence` dictionary, one per string the source uses. */
  datatype Field =
    | CompanyKey | PolicyTypeKey | StartDateKey | EndDateKey | IssueDateKey | NetPremiumKey
    | GrossPremiumKey | TaxKey | PolicyNumberKey | InsuredNameKey | TcNoKey | PlateNumberKey
    | VehicleBrandKey | VehicleModelKey

  /** The dictionary key string of each field. */
  function KeyName(f: Field): (n: string)
    ensures |n| > 0
  {
    match f
    case CompanyKey => "Company"
    case PolicyTypeKey => "PolicyType"
    case StartDateKey => "StartDate"
    case EndDateKey => "EndDate"
    case IssueDateKey => "IssueDate"
    case NetPremiumKey => "NetPremium"
    case GrossPremiumKey => "GrossPremium"
    case TaxKey => "Tax"
    case PolicyNumberKey => "PolicyNumber"
    case InsuredNameKey => "InsuredName"
    case TcNoKey => "TcNo"
    case PlateNumberKey => "PlateNumber"
    case VehicleBrandKey => "VehicleBrand"
    case VehicleModelKey => "VehicleModel"
  }

  const CriticalFields: seq<Field> := [CompanyKey, PolicyNumberKey, StartDateKey, EndDateKey, GrossPremiumKey]

  const ImportantFields: seq<Field> := [InsuredNameKey, NetPremiumKey, IssueDateKey]

  /** The critical fields of a policy type: the plate is critical for Trafik and Kasko. */
  function CriticalFieldsFor(t: PolicyType): (fs: seq<Field>)
    ensures |fs| == if RequiresPlate(t) then 6 else 5
    ensures fs[0] == CompanyKey
    ensures PlateNumberKey in fs <==> RequiresPlate(t)
  {
    if RequiresPlate(t) then CriticalFields + [PlateNumberKey] else CriticalFields
  }

  /** The sum of the confidences recorded for `fields`. */
  function PresentSum(fc: map<Field, real>, fields: seq<Field>): real {
    if fields == [] then 0.0
    else
      var last := fields[|fields| - 1];
      PresentSum(fc, fields[..|fields| - 1]) + (if last in fc then fc[last] else 0.0)
  }

  /** How many of `fields` have a recorded confidence. */
  function PresentCount(fc: map<Field, real>, fields: seq<Field>): (n: nat)
    ensures n <= |fields|
  {
    if fields == [] then 0
    else
      var last := fields[|fields| - 1];
      PresentCount(fc, fields[..|fields| - 1]) + (if last in fc then 1 else 0)
  }

  /** Every recorded confidence lies in [0, 1]. */
  predicate UnitConfidences(fc: map<Field, real>) {
    forall k :: k in fc ==> 0.0 <= fc[k] <= 1.0
  }

  lemma {:induction false} PresentBounds(fc: map<Field, real>, fields: seq<Field>)
    requires UnitConfidences(fc)
    ensures 0.0 <= PresentSum(fc, fields) <= PresentCount(fc, fields) as real
  {
    if fields != [] {
      PresentBounds(fc, fields[..|fields| - 1]);
    }
  }

  /** A field that is listed and recorded is counted. */
  lemma {:induction false} PresentCounted(fc: map<Field, real>, fields: seq<Field>, i: nat)
    requires i < |fields| && fields[i] in fc
    ensures PresentCount(fc, fields) >= 1
  {
    var n := |fields| - 1;
    if i < n {
      assert fields[..n][i] == fields[i];
      PresentCounted(fc, fields[..n], i);
    }
  }

  /** The mean of `count` values summing to `sum`; 0 when there are none. */
  function Average(sum: real, count: nat): (a: real)
    ensures 0.0 <= sum <= count as real ==> 0.0 <= a <= 1.0
  {
    if count > 0 then sum / count as real else 0.0
  }

  /** The formula of `CalculateOverallConfidence` on the two sums and counts: 70% of the mean
      critical confidence plus 30% of the mean important one, reduced by half the share of
      the `total` critical fields that are missing. */
  function Combine(criticalScore: real, criticalCount: nat, importantScore: real, importantCount: nat, total: nat): real {
    var overall := Average(criticalScore, criticalCount) * 0.7 + Average(importantScore, importantCount) * 0.3;
    if criticalCount < total then overall * (1.0 - (total - criticalCount) as real / total as real * 0.5)
    else overall
  }

  /** `CalculateOverallConfidence` before rounding; 0 for an empty dictionary. */
  function OverallScore(fc: map<Field, real>, t: PolicyType): real {
    if |fc| == 0 then 0.0
    else
      var critical := CriticalFieldsFor(t);
      Combine(PresentSum(fc, critical), PresentCount(fc, critical),
              PresentSum(fc, ImportantFields), PresentCount(fc, ImportantFields), |critical|)
  }

  lemma ProductInUnit(a: real, b: real)
    requires 0.0 <= a <= 1.0 && 0.0 <= b <= 1.0
    ensures 0.0 <= a * b <= 1.0
  {
    assert 0.0 <= a * b;
    assert a * b <= a;
  }

  /** With every recorded confidence in [0, 1], so is the overall score; the penalty takes
      off at most half. */
  lemma OverallScoreInUnit(fc: map<Field, real>, t: PolicyType)
    requires UnitConfidences(fc)
    ensures 0.0 <= OverallScore(fc, t) <= 1.0
  {
    if |fc| > 0 {
      var critical := CriticalFieldsFor(t);
      PresentBounds(fc, critical);
      PresentBounds(fc, ImportantFields);
      CombineInUnit(PresentSum(fc, critical), PresentCount(fc, critical),
                    PresentSum(fc, ImportantFields), PresentCount(fc, ImportantFields), |critical|);
    }
  }

  /** With each sum at most its count, the formula lies in [0, 1]: the penalty takes off at
      most half. */
  lemma CombineInUnit(criticalScore: real, criticalCount: nat, importantScore: real, importantCount: nat, total: nat)
    requires 0.0 <= criticalScore <= criticalCount as real
    requires 0.0 <= importantScore <= importantCount as real
    ensures 0.0 <= Combine(criticalScore, criticalCount, importantScore, importantCount, total) <= 1.0
  {
    var overall := Average(criticalScore, criticalCount) * 0.7 + Average(importantScore, importantCount) * 0.3;
    assert 0.0 <= overall <= 1.0;
    if criticalCount < total {
      var missing := (total - criticalCount) as real / total as real;
      assert 0.0 <= missing <= 1.0;
      ProductInUnit(overall, 1.0 - missing * 0.5);
    }
  }

  /** `Math.Round(x)` with ties to even. */
  function RoundHalfEven(x: real): (n: int)
    ensures x - 0.5 <= n as real <= x + 0.5
  {
    var f := x.Floor;
    var d := x - f as real;
    if d < 0.5 then f else if d > 0.5 then f + 1 else if f % 2 == 0 then f else f + 1
  }

  /** `Math.Round(x, 2)`: to the nearest hundredth, ties to even. */
  function Round2(x: real): (r: real)
    ensures x - 0.005 <= r <= x + 0.005
    ensures 0.0 <= x <= 1.0 ==> 0.0 <= r <= 1.0
  {
    RoundHalfEven(x * 100.0) as real / 100.0
  }

  /** One loop of `CalculateOverallConfidence`: the sum and the number of the confidences
      recorded for the given fields. */
  method SumPresent(fieldConfidence: map<Field, real>, fields: seq<Field>) returns (score: real, count: nat)
    ensures score == PresentSum(fieldConfidence, fields)
    ensures count == PresentCount(fieldConfidence, fields)
  {
    score, count := 0.0, 0;
    for i := 0 to |fields|
      invariant score == PresentSum(fieldConfidence, fields[..i])
      invariant count == PresentCount(fieldConfidence, fields[..i])
    {
      assert fields[..i + 1][..i] == fields[..i];
      if fields[i] in fieldConfidence {
        score := score + fieldConfidence[fields[i]];
        count := count + 1;
      }
    }
    assert fields[..|fields|] == fields;
  }

  /** `CalculateOverallConfidence`: the two loops over the critical and the important fields
      sum and count the confidences recorded for them. */
  method CalculateOverallConfidence(fieldConfidence: map<Field, real>, policyType: PolicyType) returns (r: real)
    ensures r == Round2(OverallScore(fieldConfidence, policyType))
  {
    if |fieldConfidence| == 0 {
      return Round2(0.0);
    }
    var criticalFields := CriticalFields;
    var importantFields := ImportantFields;
    if policyType == Trafik || policyType == Kasko {
      criticalFields := criticalFields + [PlateNumberKey];
    }
    assert criticalFields == CriticalFieldsFor(policyType);
    var criticalScore, criticalCount := SumPresent(fieldConfidence, criticalFields);
    var importantScore, importantCount := SumPresent(fieldConfidence, importantFields);
    var overallScore := CombineScores(criticalScore, criticalCount, importantScore, importantCount, |criticalFields|);
    r := Round2(overallScore);
  }

  /** The last steps of `CalculateOverallConfidence`: the weighted means, then the penalty
      for missing critical fields. */
  method CombineScores(criticalScore: real, criticalCount: nat, importantScore: real, importantCount: nat, total: nat)
    returns (overallScore: real)
    ensures overallScore == Combine(criticalScore, criticalCount, importantScore, importantCount, total)
  {
    var criticalAvg := Average(criticalScore, criticalCount);
    var importantAvg := Average(importantScore, importantCount);
    overallScore := criticalAvg * 0.7 + importantAvg * 0.3;
    if criticalCount < total {
      var missingRatio := (total - criticalCount) as real / total as real;
      overallScore := overallScore * (1.0 - missingRatio * 0.5);
    }
  }

  // ---------------------------------------------------------------------------------------
  // The record

  /** `!string.IsNullOrEmpty(value)`: an extracted text counts only when it is not empty. */
  function TextValue(x: Extraction<string>): (v: Option<string>)
    ensures v.Some? ==> v == x.value && v.value != ""
    ensures v.None? <==> IsNullOrEmpty(x.value)
  {
    if IsNullOrEmpty(x.value) then None else x.value
  }

  /** What every extractor and detector returns for one document's text. */
  datatype Extractions = Extractions(
    company: CompanyDetectorService.CompanyDetection,
    policyType: CompanyDetectorService.PolicyTypeDetection,
    startDate: Extraction<Date>, endDate: Extraction<Date>, issueDate: Extraction<Date>,
    netPremium: Extraction<real>, grossPremium: Extraction<real>, tax: Extraction<real>,
    policyNumber: Extraction<string>, insuredName: Extraction<string>, tcNo: Extraction<string>,
    plateNumber: Extraction<string>, vehicle: Vehicle)

  /** Every confidence in the extractions lies in [0, 1]. */
  predicate Scored(x: Extractions) {
    && 0.0 <= x.company.confidence <= 1.0
    && 0.0 <= x.policyType.confidence <= 1.0
    && WellScored(x.startDate) && WellScored(x.endDate) && WellScored(x.issueDate)
    && WellScored(x.netPremium) && WellScored(x.grossPremium) && WellScored(x.tax)
    && WellScored(x.policyNumber) && WellScored(x.insuredName) && WellScored(x.tcNo)
    && WellScored(x.plateNumber)
    && 0.0 <= x.vehicle.confidence <= 1.0
  }

  /** The keyword dictionaries the detectors and `IsCancellationDocument` search. */
  datatype Dictionaries = Dictionaries(
    companies: CompanyDetectorService.KeywordTable<CompanyType>,
    policyTypes: CompanyDetectorService.KeywordTable<PolicyType>,
    cancellation: seq<string>)

  /** The dictionaries of the service itself. */
  const SourceDictionaries := Dictionaries(
    CompanyDetectorService.CompanyKeywords, CompanyDetectorService.PolicyTypeKeywords, CancellationKeywords)

  /** Every keyword is non-empty and no entry is keyed by an Unknown value. */
  predicate ValidDictionaries(d: Dictionaries) {
    CompanyDetectorService.CompanyTable(d.companies) && CompanyDetectorService.PolicyTypeTable(d.policyTypes)
  }

  lemma SourceDictionariesValid()
    ensures ValidDictionaries(SourceDictionaries)
  {
    CompanyDetectorService.CompanyKeywordsShape();
    CompanyDetectorService.PolicyTypeKeywordsShape();
  }

  /** What `ExtractPolicyDataAsync` obtains from the detectors and extractors; the plate and
      vehicle extractors run only for Trafik, Kasko and FerdiKaza. */
  function Run(e: Engine, d: Dictionaries, text: string): (x: Extractions)
    requires ValidDictionaries(d)
  {
    var company := CompanyDetectorService.CompanyDetectionOf(text, d.companies);
    var policyType := CompanyDetectorService.PolicyTypeDetectionOf(text, d.policyTypes);
    var vehiclePolicy := IsVehiclePolicy(policyType.policyType);
    Extractions(
      company, policyType,
      DateExtractor.ExtractStartDate(e, text), DateExtractor.ExtractEndDate(e, text),
      DateExtractor.ExtractIssueDate(e, text),
      MoneyExtractor.ExtractNetPremium(e, text), MoneyExtractor.ExtractGrossPremium(e, text),
      MoneyExtractor.ExtractTax(e, text),
      PolicyNumberExtractor.Extract(e, text), NameExtractor.NameExtraction(e, text),
      TcNoExtractor.Extract(text),
      if vehiclePolicy then PlateNumberExtractor.PlateExtraction(e, text) else NotFound(),
      if vehiclePolicy then ExtractVehicleInfo(e, text) else Vehicle(None, None, 0.0))
  }

  /** Every confidence the detectors and extractors report lies in [0, 1], and the extractors
      report 0 exactly for a miss. */
  lemma RunScored(e: Engine, d: Dictionaries, text: string)
    requires ValidDictionaries(d)
    ensures Scored(Run(e, d, text))
  {
    CompanyDetectorService.DetectCompanyConfidence(text, d.companies);
    CompanyDetectorService.DetectPolicyTypeOutcome(text, d.policyTypes);
  }

  /** The detector and extractor calls of `ExtractPolicyDataAsync`, in its order. */
  method RunExtractors(e: Engine, d: Dictionaries, pdfText: string) returns (x: Extractions)
    requires ValidDictionaries(d)
    ensures x == Run(e, d, pdfText)
  {
    var company := CompanyDetectorService.DetectCompany(pdfText, d.companies);
    var policyType := CompanyDetectorService.DetectPolicyType(pdfText, d.policyTypes);
    var startDate := DateExtractor.ExtractStartDate(e, pdfText);
    var endDate := DateExtractor.ExtractEndDate(e, pdfText);
    var issueDate := DateExtractor.ExtractIssueDate(e, pdfText);
    var netPremium := MoneyExtractor.ExtractNetPremium(e, pdfText);
    var grossPremium := MoneyExtractor.ExtractGrossPremium(e, pdfText);
    var tax := MoneyExtractor.ExtractTax(e, pdfText);
    var policyNumber := PolicyNumberExtractor.Extract(e, pdfText);
    var insuredName := NameExtractor.Extract(e, pdfText);
    var tcNo := TcNoExtractor.Extract(pdfText);
    var plateNumber: Extraction<string> := NotFound();
    var vehicleInfo := Vehicle(None, None, 0.0);
    if policyType.policyType == Trafik || policyType.policyType == Kasko || policyType.policyType == FerdiKaza {
      plateNumber := PlateNumberExtractor.Extract(e, pdfText);
      vehicleInfo := ExtractVehicleInfo(e, pdfText);
    }
    x := Extractions(company, policyType, startDate, endDate, issueDate, netPremium, grossPremium,
                     tax, policyNumber, insuredName, tcNo, plateNumber, vehicleInfo);
  }

  /** The confidence recorded for an extraction that found a value. */
  function Recorded<T>(r: Extraction<T>): (c: Option<real>)
    ensures c.Some? <==> r.value.Some?
    ensures c.Some? ==> c.value == r.confidence
  {
    if r.value.Some? then Some(r.confidence) else None
  }

  /** The confidence recorded for an extracted text that is not empty. */
  function RecordedText(r: Extraction<string>): (c: Option<real>)
    ensures c.Some? <==> TextValue(r).Some?
    ensures c.Some? ==> c.value == r.confidence
  {
    if TextValue(r).Some? then Some(r.confidence) else None
  }

  /** The entry `ExtractPolicyDataAsync` makes for each key: Company and PolicyType always,
      every other field only when its extractor found a value, and the plate and the vehicle
      only for Trafik, Kasko and FerdiKaza. */
  function Entry(x: Extractions, f: Field): Option<real> {
    var vehiclePolicy := IsVehiclePolicy(x.policyType.policyType);
    match f
    case CompanyKey => Some(x.company.confidence)
    case PolicyTypeKey => Some(x.policyType.confidence)
    case StartDateKey => Recorded(x.startDate)
    case EndDateKey => Recorded(x.endDate)
    case IssueDateKey => Recorded(x.issueDate)
    case NetPremiumKey => Recorded(x.netPremium)
    case GrossPremiumKey => Recorded(x.grossPremium)
    case TaxKey => Recorded(x.tax)
    case PolicyNumberKey => RecordedText(x.policyNumber)
    case InsuredNameKey => RecordedText(x.insuredName)
    case TcNoKey => RecordedText(x.tcNo)
    case PlateNumberKey => if vehiclePolicy then RecordedText(x.plateNumber) else None
    case VehicleBrandKey => if vehiclePolicy && x.vehicle.brand.Some? then Some(x.vehicle.confidence) else None
    case VehicleModelKey => if vehiclePolicy && x.vehicle.model.Some? then Some(x.vehicle.confidence) else None
  }

  /** The position of each key in the order `ExtractPolicyDataAsync` writes it. */
  function Rank(f: Field): nat {
    match f
    case CompanyKey => 0
    case PolicyTypeKey => 1
    case StartDateKey => 2
    case EndDateKey => 3
    case IssueDateKey => 4
    case NetPremiumKey => 5
    case GrossPremiumKey => 6
    case TaxKey => 7
    case PolicyNumberKey => 8
    case InsuredNameKey => 9
    case TcNoKey => 10
    case PlateNumberKey => 11
    case VehicleBrandKey => 12
    case VehicleModelKey => 13
  }

  const FieldCount: nat := 14

  /** The key written at position `n`. */
  function FieldOfRank(n: nat): (f: Field)
    requires n < FieldCount
    ensures Rank(f) == n
  {
    match n
    case 0 => CompanyKey
    case 1 => PolicyTypeKey
    case 2 => StartDateKey
    case 3 => EndDateKey
    case 4 => IssueDateKey
    case 5 => NetPremiumKey
    case 6 => GrossPremiumKey
    case 7 => TaxKey
    case 8 => PolicyNumberKey
    case 9 => InsuredNameKey
    case 10 => TcNoKey
    case 11 => PlateNumberKey
    case 12 => VehicleBrandKey
    case _ => VehicleModelKey
  }

  lemma RankInverse(f: Field)
    ensures Rank(f) < FieldCount && FieldOfRank(Rank(f)) == f
  {
  }

  /** The dictionary after the first `n` keys have been considered in order. */
  function Stage(x: Extractions, n: nat): map<Field, real>
    requires n <= FieldCount
  {
    if n == 0 then map[]
    else
      var m := Stage(x, n - 1);
      var f := FieldOfRank(n - 1);
      match Entry(x, f)
      case None => m
      case Some(c) => m[f := c]
  }

  /** The dictionary holds exactly the entries of the keys considered so far. */
  lemma {:induction false} StageEntries(x: Extractions, n: nat)
    requires n <= FieldCount
    ensures forall f :: f in Stage(x, n) <==> Rank(f) < n && Entry(x, f).Some?
    ensures forall f :: f in Stage(x, n) ==> Stage(x, n)[f] == Entry(x, f).value
  {
    if n > 0 {
      StageEntries(x, n - 1);
      forall f
        ensures Rank(f) == n - 1 <==> f == FieldOfRank(n - 1)
      {
        RankInverse(f);
      }
    }
  }

  /** The `fieldConfidence` dictionary `ExtractPolicyDataAsync` builds. */
  function FieldConfidences(x: Extractions): map<Field, real> {
    Stage(x, FieldCount)
  }

  /** The record `ExtractPolicyDataAsync` returns: every field its extractor decides, the
      overall confidence of the dictionary above, and every other field as a new record has
      it. */
  predicate Extracted(data: PolicyData, x: Extractions)
    reads data
  {
    var vehiclePolicy := IsVehiclePolicy(x.policyType.policyType);
    && data.company == x.company.company
    && data.companyName == Some(x.company.name.GetOr(CompanyTypeName(x.company.company)))
    && data.policyType == x.policyType.policyType
    && data.startDate == x.startDate.value
    && data.endDate == x.endDate.value
    && data.issueDate == x.issueDate.value
    && data.netPremium == x.netPremium.value
    && data.grossPremium == x.grossPremium.value
    && data.giderVergisi == x.tax.value
    && data.policyNumber == TextValue(x.policyNumber)
    && data.insuredName == TextValue(x.insuredName)
    && data.insuredTcNo == TextValue(x.tcNo)
    && data.plateNumber == (if vehiclePolicy then TextValue(x.plateNumber) else None)
    && data.vehicleBrand == (if vehiclePolicy then x.vehicle.brand else None)
    && data.vehicleModel == (if vehiclePolicy then x.vehicle.model else None)
    && data.confidenceScore == Round2(OverallScore(FieldConfidences(x), x.policyType.policyType))
    && data.NotExtracted()
  }

  /** The `fieldConfidence` writes of `ExtractPolicyDataAsync`, key by key in its order. */
  method RecordConfidences(x: Extractions) returns (fieldConfidence: map<Field, real>)
    ensures fieldConfidence == FieldConfidences(x)
  {
    fieldConfidence := map[];
    fieldConfidence := fieldConfidence[CompanyKey := x.company.confidence];
    assert fieldConfidence == Stage(x, 1);
    fieldConfidence := fieldConfidence[PolicyTypeKey := x.policyType.confidence];
    assert fieldConfidence == Stage(x, 2);
    if x.startDate.value.Some? {
      fieldConfidence := fieldConfidence[StartDateKey := x.startDate.confidence];
    }
    assert fieldConfidence == Stage(x, 3);
    if x.endDate.value.Some? {
      fieldConfidence := fieldConfidence[EndDateKey := x.endDate.confidence];
    }
    assert fieldConfidence == Stage(x, 4);
    if x.issueDate.value.Some? {
      fieldConfidence := fieldConfidence[IssueDateKey := x.issueDate.confidence];
    }
    assert fieldConfidence == Stage(x, 5);
    if x.netPremium.value.Some? {
      fieldConfidence := fieldConfidence[NetPremiumKey := x.netPremium.confidence];
    }
    assert fieldConfidence == Stage(x, 6);
    if x.grossPremium.value.Some? {
      fieldConfidence := fieldConfidence[GrossPremiumKey := x.grossPremium.confidence];
    }
    assert fieldConfidence == Stage(x, 7);
    if x.tax.value.Some? {
      fieldConfidence := fieldConfidence[TaxKey := x.tax.confidence];
    }
    assert fieldConfidence == Stage(x, 8);
    if !IsNullOrEmpty(x.policyNumber.value) {
      fieldConfidence := fieldConfidence[PolicyNumberKey := x.policyNumber.confidence];
    }
    assert fieldConfidence == Stage(x, 9);
    if !IsNullOrEmpty(x.insuredName.value) {
      fieldConfidence := fieldConfidence[InsuredNameKey := x.insuredName.confidence];
    }
    assert fieldConfidence == Stage(x, 10);
    if !IsNullOrEmpty(x.tcNo.value) {
      fieldConfidence := fieldConfidence[TcNoKey := x.tcNo.confidence];
    }
    assert fieldConfidence == Stage(x, 11);
    var policyType := x.policyType.policyType;
    if policyType == Trafik || policyType == Kasko || policyType == FerdiKaza {
      if !IsNullOrEmpty(x.plateNumber.value) {
        fieldConfidence := fieldConfidence[PlateNumberKey := x.plateNumber.confidence];
      }
      assert fieldConfidence == Stage(x, 12);
      if x.vehicle.brand.Some? {
        fieldConfidence := fieldConfidence[VehicleBrandKey := x.vehicle.confidence];
      }
      assert fieldConfidence == Stage(x, 13);
      if x.vehicle.model.Some? {
        fieldConfidence := fieldConfidence[VehicleModelKey := x.vehicle.confidence];
      }
    } else {
      assert fieldConfidence == Stage(x, 12);
      assert fieldConfidence == Stage(x, 13);
    }
  }

  /** `ExtractPolicyDataAsync`: a new record, filled with what the extractors found, and its
      overall confidence computed from the confidences of those fields. The cancellation flag
      and the warnings stay local to the method. */
  method ExtractPolicyData(e: Engine, d: Dictionaries, pdfText: string) returns (policyData: PolicyData)
    requires ValidDictionaries(d)
    ensures fresh(policyData)
    ensures Extracted(policyData, Run(e, d, pdfText))
  {
    var isCancellationDocument := IsCancellationDocument(pdfText, d.cancellation);
    var x := RunExtractors(e, d, pdfText);
    var fieldConfidence := RecordConfidences(x);
    var policyType := x.policyType.policyType;
    var confidenceScore := CalculateOverallConfidence(fieldConfidence, policyType);
    // A field is written only with a value that was found, so writing the `None` of a miss
    // leaves it as the new record has it; the plate and vehicle only for a vehicle policy.
    var vehiclePolicy := policyType == Trafik || policyType == Kasko || policyType == FerdiKaza;
    policyData := new PolicyData.Extracted(
      x.company.company, Some(x.company.name.GetOr(CompanyTypeName(x.company.company))), policyType,
      x.startDate.value, x.endDate.value, x.issueDate.value,
      x.netPremium.value, x.grossPremium.value, x.tax.value,
      TextValue(x.policyNumber), TextValue(x.insuredName), TextValue(x.tcNo),
      if vehiclePolicy then TextValue(x.plateNumber) else None,
      if vehiclePolicy then x.vehicle.brand else None,
      if vehiclePolicy then x.vehicle.model else None,
      confidenceScore);
  }

  /** `data` is the record `ExtractPolicyDataAsync` builds from `text`. */
  predicate ExtractedFrom(data: PolicyData, e: Engine, d: Dictionaries, text: string)
    requires ValidDictionaries(d)
    reads data
  {
    Extracted(data, Run(e, d, text))
  }

  /** `ExtractBatchAsync`: one record per text, in order and under its key, each a new object. */
  method ExtractBatch(e: Engine, d: Dictionaries, pdfTexts: seq<(string, string)>) returns (results: seq<(string, PolicyData)>)
    requires ValidDictionaries(d)
    ensures |results| == |pdfTexts|
    ensures forall i :: 0 <= i < |results| ==> results[i].0 == pdfTexts[i].0 && fresh(results[i].1)
    ensures forall i {:trigger ExtractedFrom(results[i].1, e, d, pdfTexts[i].1)} ::
      0 <= i < |results| ==> ExtractedFrom(results[i].1, e, d, pdfTexts[i].1)
    ensures forall i, j :: 0 <= i < j < |results| ==> results[i].1 != results[j].1
  {
    results := [];
    ghost var runs := Runs(e, d, pdfTexts);
    for i := 0 to |pdfTexts|
      invariant |results| == i
      invariant forall k :: 0 <= k < i ==> results[k].0 == pdfTexts[k].0 && fresh(results[k].1)
      invariant forall k :: 0 <= k < i ==> Extracted(results[k].1, runs[k])
      invariant forall k, j :: 0 <= k < j < i ==> results[k].1 != results[j].1
    {
      var policyData := ExtractPolicyData(e, d, pdfTexts[i].1);
      ghost var before := results;
      results := results + [(pdfTexts[i].0, policyData)];
      forall k | 0 <= k < i ensures results[k] == before[k] {
        assert results[k] == before[k];
      }
      assert results[i] == (pdfTexts[i].0, policyData);
      assert Extracted(policyData, runs[i]);
      forall k | 0 <= k <= i
        ensures results[k].0 == pdfTexts[k].0 && fresh(results[k].1)
        ensures Extracted(results[k].1, runs[k])
      {
        if k < i {
          assert Extracted(before[k].1, runs[k]);
        }
      }
      forall k, j | 0 <= k < j <= i ensures results[k].1 != results[j].1 {
        if j < i {
          assert before[k].1 != before[j].1;
        } else {
          assert fresh(results[j].1);
        }
      }
    }
  }

  /** The extractions of each text of a batch, in order. */
  lemma Runs(e: Engine, d: Dictionaries, texts: seq<(string, string)>) returns (runs: seq<Extractions>)
    requires ValidDictionaries(d)
    ensures |runs| == |texts|
    ensures forall k {:trigger Run(e, d, texts[k].1)} :: 0 <= k < |texts| ==> runs[k] == Run(e, d, texts[k].1)
  {
    runs := seq(|texts|, k requires 0 <= k < |texts| => Run(e, d, texts[k].1));
  }

  // ---------------------------------------------------------------------------------------
  // Properties of the record

  /** Company and PolicyType always have a confidence entry, even when Unknown with 0; every
      other entry is there exactly when its field was found, and the plate and vehicle
      entries only for a vehicle policy. */
  lemma FieldConfidenceKeys(x: Extractions)
    ensures var fc := FieldConfidences(x);
            CompanyKey in fc && PolicyTypeKey in fc && |fc| > 0
    ensures var fc := FieldConfidences(x);
            (StartDateKey in fc <==> x.startDate.value.Some?) &&
            (EndDateKey in fc <==> x.endDate.value.Some?) &&
            (IssueDateKey in fc <==> x.issueDate.value.Some?) &&
            (NetPremiumKey in fc <==> x.netPremium.value.Some?) &&
            (GrossPremiumKey in fc <==> x.grossPremium.value.Some?) &&
            (TaxKey in fc <==> x.tax.value.Some?) &&
            (PolicyNumberKey in fc <==> TextValue(x.policyNumber).Some?) &&
            (InsuredNameKey in fc <==> TextValue(x.insuredName).Some?) &&
            (TcNoKey in fc <==> TextValue(x.tcNo).Some?)
    ensures var fc := FieldConfidences(x);
            IsVehiclePolicy(x.policyType.policyType) ==>
              (PlateNumberKey in fc <==> TextValue(x.plateNumber).Some?) &&
              (VehicleBrandKey in fc <==> x.vehicle.brand.Some?) &&
              (VehicleModelKey in fc <==> x.vehicle.model.Some?)
    ensures var fc := FieldConfidences(x);
            !IsVehiclePolicy(x.policyType.policyType) ==>
              PlateNumberKey !in fc && VehicleBrandKey !in fc && VehicleModelKey !in fc
  {
    StageEntries(x, FieldCount);
    var fc := FieldConfidences(x);
    assert CompanyKey in fc;
  }

  /** Every confidence in the dictionary lies in [0, 1]. */
  lemma FieldConfidencesInUnit(x: Extractions)
    requires Scored(x)
    ensures UnitConfidences(FieldConfidences(x))
  {
    StageEntries(x, FieldCount);
  }

  /** The extracted record's overall confidence lies in [0, 1], and Company always counts as
      a present critical field, so the empty-dictionary branch is never taken. */
  lemma ExtractedConfidence(x: Extractions)
    requires Scored(x)
    ensures var fc := FieldConfidences(x);
            |fc| > 0 && PresentCount(fc, CriticalFieldsFor(x.policyType.policyType)) >= 1
    ensures 0.0 <= Round2(OverallScore(FieldConfidences(x), x.policyType.policyType)) <= 1.0
  {
    var fc := FieldConfidences(x);
    var t := x.policyType.policyType;
    FieldConfidenceKeys(x);
    FieldConfidencesInUnit(x);
    OverallScoreInUnit(fc, t);
    PresentCounted(fc, CriticalFieldsFor(t), 0);
  }

  /** Every record `ExtractPolicyDataAsync` returns has its overall confidence in [0, 1]. */
  lemma ExtractedRecordConfidence(data: PolicyData, e: Engine, d: Dictionaries, text: string)
    requires ValidDictionaries(d)
    requires Extracted(data, Run(e, d, text))
    ensures 0.0 <= data.confidenceScore <= 1.0
  {
    RunScored(e, d, text);
    ExtractedConfidence(Run(e, d, text));
  }
}
