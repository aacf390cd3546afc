/** The extraction record and the two enumerations it is keyed by. */
module Models {
  import opened Wrappers
  import opened Calendar

  /** The insurance companies the detector knows; `Unknown` when none is found. */
  datatype CompanyType =
    | Unknown | Acibadem | AcnTurk | Ak | Allianz | Ana | Anadolu | Ankara | Arex | Atlas
    | Axa | Bereket | Corpus | Doga | Emaa | Ethica | Eureko | Gulf | HDI | Hepiyi | Koru
    | Magdeburger | Mapfre | Neova | Orient | Prive | Quick | Ray | Referans | Seker | Sompo
    | TurkiyeKatilim | TurkiyePusula | TurkNippon | Unico | Zurich

  /** The lines of business; `Unknown` when none is found. */
  datatype PolicyType =
    | UnknownPolicy | Trafik | Kasko | Dask | Konut | FerdiKaza | Seyahat | Saglik | IMM
    | YesilKart | Koltuk | Yangin | DogalKoruma | IsyeriMuhteviyat | TSS | Isyeri
    | YabanciSaglik | Nakliyat | Muhendislik | Sorumluluk | Tarim | Hayat

  /** `CompanyType.ToString()`. */
  function CompanyTypeName(c: CompanyType): (n: string)
    ensures |n| > 0
  {
    match c
    case Unknown => "Unknown"
    case Acibadem => "Acibadem"
    case AcnTurk => "AcnTurk"
    case Ak => "Ak"
    case Allianz => "Allianz"
    case Ana => "Ana"
    case Anadolu => "Anadolu"
    case Ankara => "Ankara"
    case Arex => "Arex"
    case Atlas => "Atlas"
    case Axa => "Axa"
    case Bereket => "Bereket"
    case Corpus => "Corpus"
    case Doga => "Doga"
    case Emaa => "Emaa"
    case Ethica => "Ethica"
    case Eureko => "Eureko"
    case Gulf => "Gulf"
    case HDI => "HDI"
    case Hepiyi => "Hepiyi"
    case Koru => "Koru"
    case Magdeburger => "Magdeburger"
    case Mapfre => "Mapfre"
    case Neova => "Neova"
    case Orient => "Orient"
    case Prive => "Prive"
    case Quick => "Quick"
    case Ray => "Ray"
    case Referans => "Referans"
    case Seker => "Seker"
    case Sompo => "Sompo"
    case TurkiyeKatilim => "TurkiyeKatilim"
    case TurkiyePusula => "TurkiyePusula"
    case TurkNippon => "TurkNippon"
    case Unico => "Unico"
    case Zurich => "Zurich"
  }

  /** `PolicyType.ToString()`, with the enum's own Turkish spellings. */
  function PolicyTypeName(p: PolicyType): (n: string)
    ensures |n| > 0
  {
    match p
    case UnknownPolicy => "Unknown"
    case Trafik => "Trafik"
    case Kasko => "Kasko"
    case Dask => "Dask"
    case Konut => "Konut"
    case FerdiKaza => "FerdiKaza"
    case Seyahat => "Seyahat"
    case Saglik => "Saglik"
    case IMM => "IMM"
    case YesilKart => "YesilKart"
    case Koltuk => "Koltuk"
    case Yangin => "Yangin"
    case DogalKoruma => "DoğalKoruma"
    case IsyeriMuhteviyat => "IsyeriMuhteviyat"
    case TSS => "TSS"
    case Isyeri => "Isyeri"
    case YabanciSaglik => "YabanciSaglik"
    case Nakliyat => "Nakliyat"
    case Muhendislik => "Muhendislik"
    case Sorumluluk => "Sorumluluk"
    case Tarim => "Tarım"
    case Hayat => "Hayat"
  }

  /** The policy types that carry a vehicle (plate, brand and model are looked for). */
  predicate IsVehiclePolicy(p: PolicyType) { p == Trafik || p == Kasko || p == FerdiKaza }

  /** The policy types for which a plate is mandatory. */
  predicate RequiresPlate(p: PolicyType) { p == Trafik || p == Kasko }

  /** `PolicyData`: every field of the record, nullable ones as `Option`. Money is a decimal
      value, dates are calendar days (the parsers produce midnights), confidences are reals. */
  class PolicyData {
    var policyNumber: Option<string>
    var company: CompanyType
    var companyName: Option<string>
    var policyType: PolicyType
    var policyTypeText: Option<string>
    var startDate: Option<Date>
    var endDate: Option<Date>
    var issueDate: Option<Date>
    var durationDays: Option<int>
    var netPremium: Option<real>
    var grossPremium: Option<real>
    var giderVergisi: Option<real>
    var insuredName: Option<string>
    var insuredTcNo: Option<string>
    var insuredPhone: Option<string>
    var insuredAddress: Option<string>
    var plateNumber: Option<string>
    var vehicleBrand: Option<string>
    var vehicleModel: Option<string>
    var vehicleType: Option<string>
    var vehicleYear: Option<int>
    var chassisNumber: Option<string>
    var engineNumber: Option<string>
    var confidenceScore: real
    var warnings: seq<string>
    var fieldConfidence: map<string, real>
    var extractionMethod: Option<string>
    var isCancellationDocument: bool

    /** `new PolicyData()`: every nullable field empty, the enums `Unknown`, the lists empty. */
    constructor ()
      ensures IsEmptyRecord()
    {
      policyNumber := None;
      company := Unknown;
      companyName := None;
      policyType := UnknownPolicy;
      policyTypeText := None;
      startDate := None;
      endDate := None;
      issueDate := None;
      durationDays := None;
      netPremium := None;
      grossPremium := None;
      giderVergisi := None;
      insuredName := None;
      insuredTcNo := None;
      insuredPhone := None;
      insuredAddress := None;
      plateNumber := None;
      vehicleBrand := None;
      vehicleModel := None;
      vehicleType := None;
      vehicleYear := None;
      chassisNumber := None;
      engineNumber := None;
      confidenceScore := 0.0;
      warnings := [];
      fieldConfidence := map[];
      extractionMethod := None;
      isCancellationDocument := false;
    }

    /** `new PolicyData()` followed by the property writes of an extraction: the extracted
        fields as given, every other field as a new record has it. */
    constructor Extracted(
      company: CompanyType, companyName: Option<string>, policyType: PolicyType,
      startDate: Option<Date>, endDate: Option<Date>, issueDate: Option<Date>,
      netPremium: Option<real>, grossPremium: Option<real>, giderVergisi: Option<real>,
      policyNumber: Option<string>, insuredName: Option<string>, insuredTcNo: Option<string>,
      plateNumber: Option<string>, vehicleBrand: Option<string>, vehicleModel: Option<string>,
      confidenceScore: real)
      ensures this.company == company && this.companyName == companyName && this.policyType == policyType
      ensures this.startDate == startDate && this.endDate == endDate && this.issueDate == issueDate
      ensures this.netPremium == netPremium && this.grossPremium == grossPremium
      ensures this.giderVergisi == giderVergisi
      ensures this.policyNumber == policyNumber && this.insuredName == insuredName
      ensures this.insuredTcNo == insuredTcNo
      ensures this.plateNumber == plateNumber && this.vehicleBrand == vehicleBrand
      ensures this.vehicleModel == vehicleModel
      ensures this.confidenceScore == confidenceScore
      ensures NotExtracted()
    {
      this.policyNumber := policyNumber;
      this.company := company;
      this.companyName := companyName;
      this.policyType := policyType;
      policyTypeText := None;
      this.startDate := startDate;
      this.endDate := endDate;
      this.issueDate := issueDate;
      durationDays := None;
      this.netPremium := netPremium;
      this.grossPremium := grossPremium;
      this.giderVergisi := giderVergisi;
      this.insuredName := insuredName;
      this.insuredTcNo := insuredTcNo;
      insuredPhone := None;
      insuredAddress := None;
      this.plateNumber := plateNumber;
      this.vehicleBrand := vehicleBrand;
      this.vehicleModel := vehicleModel;
      vehicleType := None;
      vehicleYear := None;
      chassisNumber := None;
      engineNumber := None;
      this.confidenceScore := confidenceScore;
      warnings := [];
      fieldConfidence := map[];
      extractionMethod := None;
      isCancellationDocument := false;
    }

    /** The fields no extractor writes are as a new record has them. */
    predicate NotExtracted()
      reads this
    {
      && policyTypeText.None? && durationDays.None? && insuredPhone.None? && insuredAddress.None?
      && vehicleType.None? && vehicleYear.None? && chassisNumber.None? && engineNumber.None?
      && warnings == [] && fieldConfidence == map[] && extractionMethod.None?
      && !isCancellationDocument
    }

    /** The state a freshly constructed record is in. */
    predicate IsEmptyRecord()
      reads this
    {
      && policyNumber.None? && company == Unknown && companyName.None?
      && policyType == UnknownPolicy && policyTypeText.None?
      && startDate.None? && endDate.None? && issueDate.None? && durationDays.None?
      && netPremium.None? && grossPremium.None? && giderVergisi.None?
      && insuredName.None? && insuredTcNo.None? && insuredPhone.None? && insuredAddress.None?
      && plateNumber.None? && vehicleBrand.None? && vehicleModel.None? && vehicleType.None?
      && vehicleYear.None? && chassisNumber.None? && engineNumber.None?
      && confidenceScore == 0.0 && warnings == [] && fieldConfidence == map[]
      && extractionMethod.None? && !isCancellationDocument
    }
  }
}
