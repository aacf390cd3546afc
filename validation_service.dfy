/** `ValidationService`: the rules an extracted record is checked against. Each rule group
    appends its errors and warnings to one `ValidationResult` in place; the date group also
    records the policy's duration in the record. The clock is the parameter `now`. */
module ValidationService {
  import opened Wrappers
  import opened Text
  import opened Calendar
  import opened Models
  import TcNoExtractor

  /** The two premiums, which share their range rules. */
  datatype Premium = Net | Gross

  /** The errors, each carrying the values its message interpolates. */
  datatype Error =
    | UnknownCompany
    | MissingPolicyNumber
    | MissingStartDate
    | MissingEndDate
    | MissingPremium
    | MissingPlate(policyType: PolicyType)
    | EndBeforeStart(end: Date, start: Date)
    | InvalidDuration(days: int)
    | TcNoLength(tcNo: string)
    | TcNoNotDigits(tcNo: string)
    | TcNoLeadingZero(tcNo: string)
      /** The catch branch: an exception was thrown part-way through the rules. */
    | ValidationFailed

  /** The warnings, each carrying the values its message interpolates. */
  datatype Warning =
    | ZeroPremiums
    | StartTooLate(start: Date)
    | StartTooEarly(start: Date)
    | DurationTooLong(days: int)
    | IssueLongAfterStart(issue: Date)
    | IssueInFuture(issue: Date)
    | IssueTooEarly(issue: Date)
    | PremiumNegative(premium: Premium, amount: real)
    | PremiumZero(premium: Premium)
    | PremiumTooHigh(premium: Premium, amount: real)
    | GrossBelowNet(gross: real, net: real)
    | PremiumGapTooHigh(percent: real)
    | TaxNegative(amount: real)
    | PlateFormat(plate: string)
    | PlateProvinceNotDigits(plate: string)
    | ProvinceCodeOutOfRange(code: int)
    | NameOneWord(name: string)
    | NameTooShort(name: string)
    | NameTooLong(name: string)
    | PolicyNumberTooShort(policyNumber: string)
    | PolicyNumberTooLong(policyNumber: string)
    | ConfidenceVeryLow(score: real)
    | ConfidenceLow(score: real)

  /** `ValidationResult`: the verdict and the two message lists the rules append to. */
  class ValidationResult {
    var isValid: bool
    var errors: seq<Error>
    var warnings: seq<Warning>

    constructor ()
      ensures isValid && errors == [] && warnings == []
    {
      isValid := true;
      errors := [];
      warnings := [];
    }

    predicate HasWarnings()
      reads this
    {
      |warnings| > 0
    }

    predicate HasErrors()
      reads this
    {
      |errors| > 0
    }
  }

  /** The fields of a record the rules read. */
  datatype Fields = Fields(
    company: CompanyType, policyType: PolicyType, policyNumber: Option<string>,
    startDate: Option<Date>, endDate: Option<Date>, issueDate: Option<Date>,
    netPremium: Option<real>, grossPremium: Option<real>, giderVergisi: Option<real>,
    insuredName: Option<string>, insuredTcNo: Option<string>, plateNumber: Option<string>,
    confidenceScore: real)

  function FieldsOf(data: PolicyData): Fields
    reads data
  {
    Fields(
      data.company, data.policyType, data.policyNumber,
      data.startDate, data.endDate, data.issueDate,
      data.netPremium, data.grossPremium, data.giderVergisi,
      data.insuredName, data.insuredTcNo, data.plateNumber,
      data.confidenceScore)
  }

  /** Every date a record holds is a day a `DateTime` can hold. */
  predicate DatesValid(f: Fields) {
    ValidOptDate(f.startDate) && ValidOptDate(f.endDate) && ValidOptDate(f.issueDate)
  }

  predicate ValidOptDate(d: Option<Date>) {
    d.Some? ==> IsValidDate(d.value)
  }

  /** A clock for which `now.AddYears(2)`, `now.AddYears(-10)` and `now.AddDays(1)` exist. */
  predicate ClockInRange(now: Instant) {
    IsValidInstant(now) && 11 <= now.date.year <= 9997
  }

  function YearsFromNow(now: Instant, n: int): (r: Instant)
    requires ClockInRange(now) && -10 <= n <= 2
    ensures IsValidInstant(r) && r.date.year == now.date.year + n && r.timeOfDay == now.timeOfDay
  {
    AddYearsInstant(now, n).value
  }

  /** One rule's conditional `Add`: the list `s` with `x` appended when `c` holds. */
  function AddIf<T>(s: seq<T>, c: bool, x: T): seq<T> {
    if c then s + [x] else s
  }

  /** `AddIf` only ever appends, and appends exactly `x` when `c` holds. */
  lemma AddIfContents<T>(s: seq<T>, c: bool, x: T, y: T)
    ensures y in AddIf(s, c, x) <==> y in s || (c && y == x)
    ensures |AddIf(s, c, x)| == |s| + (if c then 1 else 0) && AddIf(s, c, x)[..|s|] == s
  {
  }

  // Each rule group below is a function from the list before the group to the list after
  // it, so that the method applying the group in place is specified by
  // `result.errors == Group(old(result.errors), ...)`.

  // ---------------------------------------------------------------- mandatory fields

  predicate NoPremium(gross: Option<real>, net: Option<real>) { gross.None? && net.None? }

  predicate BothPremiumsZero(gross: Option<real>, net: Option<real>) {
    gross.Some? && net.Some? && gross.value == 0.0 && net.value == 0.0
  }

  /** A motor third-party or motor own-damage policy without a plate. */
  predicate PlateMissing(policyType: PolicyType, plate: Option<string>) {
    RequiresPlate(policyType) && IsNullOrWhiteSpace(plate)
  }

  function MandatoryErrors(errs: seq<Error>, f: Fields): seq<Error> {
    var e1 := AddIf(errs, f.company == Unknown, UnknownCompany);
    var e2 := AddIf(e1, IsNullOrWhiteSpace(f.policyNumber), MissingPolicyNumber);
    var e3 := AddIf(e2, f.startDate.None?, MissingStartDate);
    var e4 := AddIf(e3, f.endDate.None?, MissingEndDate);
    var e5 := AddIf(e4, NoPremium(f.grossPremium, f.netPremium), MissingPremium);
    AddIf(e5, PlateMissing(f.policyType, f.plateNumber), MissingPlate(f.policyType))
  }

  /** Two zero premiums are only a warning: an endorsement may carry no premium. */
  function MandatoryWarnings(ws: seq<Warning>, f: Fields): seq<Warning> {
    if NoPremium(f.grossPremium, f.netPremium) then ws
    else AddIf(ws, BothPremiumsZero(f.grossPremium, f.netPremium), ZeroPremiums)
  }

  method ValidateMandatoryFields(data: PolicyData, result: ValidationResult)
    modifies result
    ensures result.errors == MandatoryErrors(old(result.errors), FieldsOf(data))
    ensures result.warnings == MandatoryWarnings(old(result.warnings), FieldsOf(data))
    ensures result.isValid == old(result.isValid)
  {
    result.errors := AddIf(result.errors, data.company == Unknown, UnknownCompany);
    result.errors := AddIf(result.errors, IsNullOrWhiteSpace(data.policyNumber), MissingPolicyNumber);
    result.errors := AddIf(result.errors, data.startDate.None?, MissingStartDate);
    result.errors := AddIf(result.errors, data.endDate.None?, MissingEndDate);
    if NoPremium(data.grossPremium, data.netPremium) {
      result.errors := result.errors + [MissingPremium];
    } else if BothPremiumsZero(data.grossPremium, data.netPremium) {
      result.warnings := result.warnings + [ZeroPremiums];
    }
    result.errors := AddIf(result.errors, PlateMissing(data.policyType, data.plateNumber), MissingPlate(data.policyType));
  }

  // ---------------------------------------------------------------- dates

  /** The policy's length in days: the dates are midnights, so `TotalDays` is whole. */
  function Duration(start: Date, end: Date): int
    requires IsValidDate(start) && IsValidDate(end)
  {
    DayNumber(end) - DayNumber(start)
  }

  /** The start-date rules: more than two years ahead of the clock, or more than ten behind. */
  function StartWarnings(ws: seq<Warning>, start: Option<Date>, now: Instant): seq<Warning>
    requires ValidOptDate(start) && ClockInRange(now)
  {
    if start.None? then ws
    else
      var s := start.value;
      var w1 := AddIf(ws, Ticks(s) > InstantTicks(YearsFromNow(now, 2)), StartTooLate(s));
      AddIf(w1, Ticks(s) < InstantTicks(YearsFromNow(now, -10)), StartTooEarly(s))
  }

  /** The end-date errors: an end before the start, and a duration below one day. */
  function EndErrors(errs: seq<Error>, start: Option<Date>, end: Option<Date>): seq<Error>
    requires ValidOptDate(start) && ValidOptDate(end)
  {
    if end.None? || start.None? then errs
    else
      var e, s := end.value, start.value;
      var e1 := AddIf(errs, Ticks(e) < Ticks(s), EndBeforeStart(e, s));
      AddIf(e1, Duration(s, e) < 1, InvalidDuration(Duration(s, e)))
  }

  /** The end-date warning: a duration above five years of 365 days. */
  function EndWarnings(ws: seq<Warning>, start: Option<Date>, end: Option<Date>): seq<Warning>
    requires ValidOptDate(start) && ValidOptDate(end)
  {
    if end.None? || start.None? then ws
    else AddIf(ws, Duration(start.value, end.value) > 365 * 5, DurationTooLong(Duration(start.value, end.value)))
  }

  /** The duration the date rules write into the record, when they write one. */
  function WrittenDuration(start: Option<Date>, end: Option<Date>): (r: Option<int>)
    requires ValidOptDate(start) && ValidOptDate(end)
    ensures r.Some? <==> start.Some? && end.Some? && 1 <= Duration(start.value, end.value) <= 365 * 5
    ensures r.Some? ==> r.value == Duration(start.value, end.value)
  {
    if end.None? || start.None? then None
    else if 1 <= Duration(start.value, end.value) <= 365 * 5 then Some(Duration(start.value, end.value))
    else None
  }

  /** `start.AddDays(30)` would pass the last day a `DateTime` can hold. */
  predicate AddDaysOverflows(start: Option<Date>)
    requires ValidOptDate(start)
  {
    start.Some? && DayNumber(start.value) + 30 > MaxDayNumber()
  }

  /** `StartDate.AddDays(30)` throws when it passes the last representable instant; it is
      only taken when both the issue date and the start date are present. */
  predicate IssueThrows(issue: Option<Date>, start: Option<Date>)
    requires ValidOptDate(start)
  {
    issue.Some? && AddDaysOverflows(start)
  }

  /** Issued more than thirty days after a start date that is present. */
  predicate IssuedLongAfterStart(issue: Date, start: Option<Date>)
    requires IsValidDate(issue) && ValidOptDate(start)
  {
    start.Some? && Ticks(issue) > Ticks(start.value) + 30 * TicksPerDay
  }

  /** The issue-date rules: long after the start, more than a day ahead of the clock, or
      more than ten years behind it. */
  function IssueWarnings(ws: seq<Warning>, issue: Option<Date>, start: Option<Date>, now: Instant): seq<Warning>
    requires ValidOptDate(issue) && ValidOptDate(start) && ClockInRange(now) && !IssueThrows(issue, start)
  {
    if issue.None? then ws
    else
      var i := issue.value;
      var w1 := AddIf(ws, IssuedLongAfterStart(i, start), IssueLongAfterStart(i));
      var w2 := AddIf(w1, Ticks(i) > InstantTicks(now) + TicksPerDay, IssueInFuture(i));
      AddIf(w2, Ticks(i) < InstantTicks(YearsFromNow(now, -10)), IssueTooEarly(i))
  }

  /** The date warnings, up to the point where `AddDays(30)` throws. */
  function DateWarnings(ws: seq<Warning>, f: Fields, now: Instant): seq<Warning>
    requires DatesValid(f) && ClockInRange(now)
  {
    var w := EndWarnings(StartWarnings(ws, f.startDate, now), f.startDate, f.endDate);
    if IssueThrows(f.issueDate, f.startDate) then w else IssueWarnings(w, f.issueDate, f.startDate, now)
  }

  method ValidateStartDate(data: PolicyData, result: ValidationResult, now: Instant)
    requires ValidOptDate(data.startDate) && ClockInRange(now)
    modifies result
    ensures result.warnings == StartWarnings(old(result.warnings), data.startDate, now)
    ensures result.errors == old(result.errors) && result.isValid == old(result.isValid)
  {
    if data.startDate.Some? {
      result.warnings := AddIf(result.warnings, Ticks(data.startDate.value) > InstantTicks(YearsFromNow(now, 2)),
                               StartTooLate(data.startDate.value));
      result.warnings := AddIf(result.warnings, Ticks(data.startDate.value) < InstantTicks(YearsFromNow(now, -10)),
                               StartTooEarly(data.startDate.value));
    }
  }

  method ValidateEndDate(data: PolicyData, result: ValidationResult)
    requires ValidOptDate(data.startDate) && ValidOptDate(data.endDate)
    modifies result, data`durationDays
    ensures result.errors == EndErrors(old(result.errors), data.startDate, data.endDate)
    ensures result.warnings == EndWarnings(old(result.warnings), data.startDate, data.endDate)
    ensures result.isValid == old(result.isValid)
    ensures data.durationDays == match WrittenDuration(data.startDate, data.endDate)
                                 case Some(d) => Some(d)
                                 case None => old(data.durationDays)
  {
    if data.endDate.Some? {
      if data.startDate.Some? {
        result.errors := AddIf(result.errors, Ticks(data.endDate.value) < Ticks(data.startDate.value),
                               EndBeforeStart(data.endDate.value, data.startDate.value));
        var duration := DayNumber(data.endDate.value) - DayNumber(data.startDate.value);
        if duration > 365 * 5 {
          result.warnings := result.warnings + [DurationTooLong(duration)];
        } else if duration < 1 {
          result.errors := result.errors + [InvalidDuration(duration)];
        } else {
          data.durationDays := Some(duration);
        }
      }
    }
  }

  /** The issue-date rules; `thrown` reports the exception of `StartDate.AddDays(30)`, which
      is raised before any of them appends. */
  method ValidateIssueDate(data: PolicyData, result: ValidationResult, now: Instant) returns (thrown: bool)
    requires ValidOptDate(data.issueDate) && ValidOptDate(data.startDate) && ClockInRange(now)
    modifies result
    ensures thrown == IssueThrows(data.issueDate, data.startDate)
    ensures result.warnings == if thrown then old(result.warnings)
                               else IssueWarnings(old(result.warnings), data.issueDate, data.startDate, now)
    ensures result.errors == old(result.errors) && result.isValid == old(result.isValid)
  {
    thrown := false;
    if data.issueDate.Some? {
      if AddDaysOverflows(data.startDate) {
        thrown := true;
        return;
      }
      result.warnings := AddIf(result.warnings, IssuedLongAfterStart(data.issueDate.value, data.startDate),
                               IssueLongAfterStart(data.issueDate.value));
      result.warnings := AddIf(result.warnings, Ticks(data.issueDate.value) > InstantTicks(now) + TicksPerDay,
                               IssueInFuture(data.issueDate.value));
      result.warnings := AddIf(result.warnings, Ticks(data.issueDate.value) < InstantTicks(YearsFromNow(now, -10)),
                               IssueTooEarly(data.issueDate.value));
    }
  }

  /** The date rules. `thrown` reports the exception of `AddDays(30)`: the rules after it
      are not applied, and what was appended or written before it stays. */
  method ValidateDates(data: PolicyData, result: ValidationResult, now: Instant) returns (thrown: bool)
    requires DatesValid(FieldsOf(data)) && ClockInRange(now)
    modifies result, data`durationDays
    ensures thrown == IssueThrows(data.issueDate, data.startDate)
    ensures result.errors == EndErrors(old(result.errors), data.startDate, data.endDate)
    ensures result.warnings == DateWarnings(old(result.warnings), FieldsOf(data), now)
    ensures result.isValid == old(result.isValid)
    ensures data.durationDays == match WrittenDuration(data.startDate, data.endDate)
                                 case Some(d) => Some(d)
                                 case None => old(data.durationDays)
  {
    ValidateStartDate(data, result, now);
    ValidateEndDate(data, result);
    thrown := ValidateIssueDate(data, result, now);
  }

  // ---------------------------------------------------------------- money

  /** One premium's range rule: negative, zero or above one million, at most one of them. */
  function PremiumLevelWarnings(ws: seq<Warning>, p: Premium, amount: Option<real>): (r: seq<Warning>)
    ensures |ws| <= |r| <= |ws| + 1 && r[..|ws|] == ws
  {
    match amount
    case None => ws
    case Some(v) =>
      if v < 0.0 then ws + [PremiumNegative(p, v)]
      else if v == 0.0 then ws + [PremiumZero(p)]
      else if v > 1000000.0 then ws + [PremiumTooHigh(p, v)]
      else ws
  }

  /** How far the gross premium lies above the net one, in percent of the net one. */
  function GapPercent(gross: real, net: real): real
    requires net != 0.0
  {
    (gross - net) / net * 100.0
  }

  /** The rules comparing the two premiums: gross below net, and a gap above half of net. */
  function ComparisonWarnings(ws: seq<Warning>, gross: Option<real>, net: Option<real>): seq<Warning> {
    if gross.None? || net.None? then ws
    else
      var g, n := gross.value, net.value;
      var w1 := AddIf(ws, g < n, GrossBelowNet(g, n));
      if n > 0.0 then AddIf(w1, GapPercent(g, n) > 50.0, PremiumGapTooHigh(GapPercent(g, n))) else w1
  }

  function TaxWarnings(ws: seq<Warning>, tax: Option<real>): seq<Warning> {
    if tax.Some? && tax.value < 0.0 then ws + [TaxNegative(tax.value)] else ws
  }

  function MoneyWarnings(ws: seq<Warning>, f: Fields): seq<Warning> {
    var w1 := PremiumLevelWarnings(ws, Net, f.netPremium);
    var w2 := PremiumLevelWarnings(w1, Gross, f.grossPremium);
    TaxWarnings(ComparisonWarnings(w2, f.grossPremium, f.netPremium), f.giderVergisi)
  }

  /** One premium's range rule, applied in place. */
  method ValidatePremiumLevel(result: ValidationResult, p: Premium, amount: Option<real>)
    modifies result
    ensures result.warnings == PremiumLevelWarnings(old(result.warnings), p, amount)
    ensures result.errors == old(result.errors) && result.isValid == old(result.isValid)
  {
    if amount.Some? {
      if amount.value < 0.0 {
        result.warnings := result.warnings + [PremiumNegative(p, amount.value)];
      } else if amount.value == 0.0 {
        result.warnings := result.warnings + [PremiumZero(p)];
      } else if amount.value > 1000000.0 {
        result.warnings := result.warnings + [PremiumTooHigh(p, amount.value)];
      }
    }
  }

  /** The comparison of the two premiums, applied in place. */
  method ComparePremiums(result: ValidationResult, gross: Option<real>, net: Option<real>)
    modifies result
    ensures result.warnings == ComparisonWarnings(old(result.warnings), gross, net)
    ensures result.errors == old(result.errors) && result.isValid == old(result.isValid)
  {
    if gross.Some? && net.Some? {
      result.warnings := AddIf(result.warnings, gross.value < net.value, GrossBelowNet(gross.value, net.value));
      if net.value > 0.0 {
        var diff := gross.value - net.value;
        var diffPercent := diff / net.value * 100.0;
        result.warnings := AddIf(result.warnings, diffPercent > 50.0, PremiumGapTooHigh(diffPercent));
      }
    }
  }

  method ValidateMoneyValues(data: PolicyData, result: ValidationResult)
    modifies result
    ensures result.warnings == MoneyWarnings(old(result.warnings), FieldsOf(data))
    ensures result.errors == old(result.errors) && result.isValid == old(result.isValid)
  {
    ValidatePremiumLevel(result, Net, data.netPremium);
    ValidatePremiumLevel(result, Gross, data.grossPremium);
    ComparePremiums(result, data.grossPremium, data.netPremium);
    if data.giderVergisi.Some? {
      if data.giderVergisi.value < 0.0 {
        result.warnings := result.warnings + [TaxNegative(data.giderVergisi.value)];
      }
    }
  }

  // ---------------------------------------------------------------- identity number

  /** The shape the rules ask of an identity number: eleven digits, the first not zero. */
  predicate WellFormedTcNo(t: string) {
    |t| == 11 && AllDigits(t) && t[0] != '0'
  }

  /** At most one identity-number error, none exactly for a blank or well-formed number. */
  function TcNoErrors(errs: seq<Error>, tcNo: Option<string>): (r: seq<Error>)
    ensures |errs| <= |r| <= |errs| + 1 && r[..|errs|] == errs
    ensures r == errs <==> IsNullOrWhiteSpace(tcNo) || WellFormedTcNo(tcNo.value)
  {
    if IsNullOrWhiteSpace(tcNo) then errs
    else
      var t := tcNo.value;
      if |t| != 11 then errs + [TcNoLength(t)]
      else if !AllDigits(t) then errs + [TcNoNotDigits(t)]
      else if t[0] == '0' then errs + [TcNoLeadingZero(t)]
      else errs
  }

  method ValidateTcNo(data: PolicyData, result: ValidationResult)
    modifies result
    ensures result.errors == TcNoErrors(old(result.errors), data.insuredTcNo)
    ensures result.warnings == old(result.warnings) && result.isValid == old(result.isValid)
  {
    if !IsNullOrWhiteSpace(data.insuredTcNo) {
      var t := data.insuredTcNo.value;
      if |t| != 11 {
        result.errors := result.errors + [TcNoLength(t)];
      } else if !AllDigits(t) {
        result.errors := result.errors + [TcNoNotDigits(t)];
      } else if t[0] == '0' {
        result.errors := result.errors + [TcNoLeadingZero(t)];
      }
    }
  }

  /** A number the identity-number extractor accepts passes these rules. */
  lemma ExtractedTcNoPasses(errs: seq<Error>, t: string)
    requires TcNoExtractor.IsValidTcNo(t)
    ensures TcNoErrors(errs, Some(t)) == errs
  {
    assert !IsWhiteSpace(t[0]);
  }

  // ---------------------------------------------------------------- plate

  /** `int.Parse` of the first two characters of a cleaned plate, both digits. */
  function ProvinceCode(c: string): (code: int)
    requires |c| >= 2 && IsDigit(c[0]) && IsDigit(c[1])
    ensures 0 <= code <= 99
  {
    DigitValue(c[0]) * 10 + DigitValue(c[1])
  }

  /** The province rule: the first two characters must be digits naming a province 1 .. 81. */
  function ProvinceWarnings(ws: seq<Warning>, plate: string, c: string): seq<Warning>
    requires |c| >= 2
  {
    if !IsDigit(c[0]) || !IsDigit(c[1]) then ws + [PlateProvinceNotDigits(plate)]
    else AddIf(ws, OutsideProvinceRange(ProvinceCode(c)), ProvinceCodeOutOfRange(ProvinceCode(c)))
  }

  /** A cleaned plate shorter than six or longer than eight characters. */
  predicate SuspectPlateLength(c: string) { |c| < 6 || |c| > 8 }

  predicate OutsideProvinceRange(code: int) { code < 1 || code > 81 }

  function PlateWarnings(ws: seq<Warning>, plate: Option<string>): seq<Warning> {
    if IsNullOrWhiteSpace(plate) then ws
    else
      var p := plate.value;
      var c := RemoveChar(p, ' ');
      var w1 := AddIf(ws, SuspectPlateLength(c), PlateFormat(p));
      if |c| >= 2 then ProvinceWarnings(w1, p, c) else w1
  }

  method ValidatePlateNumber(data: PolicyData, result: ValidationResult)
    modifies result
    ensures result.warnings == PlateWarnings(old(result.warnings), data.plateNumber)
    ensures result.errors == old(result.errors) && result.isValid == old(result.isValid)
  {
    if !IsNullOrWhiteSpace(data.plateNumber) {
      var plateClean := RemoveChar(data.plateNumber.value, ' ');
      result.warnings := AddIf(result.warnings, SuspectPlateLength(plateClean), PlateFormat(data.plateNumber.value));
      if |plateClean| >= 2 {
        if !IsDigit(plateClean[0]) || !IsDigit(plateClean[1]) {
          result.warnings := result.warnings + [PlateProvinceNotDigits(data.plateNumber.value)];
        } else {
          var ilKodu := DigitValue(plateClean[0]) * 10 + DigitValue(plateClean[1]);
          result.warnings := AddIf(result.warnings, OutsideProvinceRange(ilKodu), ProvinceCodeOutOfRange(ilKodu));
        }
      }
    }
  }

  // ---------------------------------------------------------------- name and policy number

  function NameWarnings(ws: seq<Warning>, name: Option<string>): seq<Warning> {
    if IsNullOrWhiteSpace(name) then ws
    else
      var n := name.value;
      var w1 := AddIf(ws, |SplitRemoveEmpty(n, ' ')| < 2, NameOneWord(n));
      var w2 := AddIf(w1, |n| < 5, NameTooShort(n));
      AddIf(w2, |n| > 100, NameTooLong(n))
  }

  method ValidateName(data: PolicyData, result: ValidationResult)
    modifies result
    ensures result.warnings == NameWarnings(old(result.warnings), data.insuredName)
    ensures result.errors == old(result.errors) && result.isValid == old(result.isValid)
  {
    if !IsNullOrWhiteSpace(data.insuredName) {
      var parts := SplitRemoveEmpty(data.insuredName.value, ' ');
      result.warnings := AddIf(result.warnings, |parts| < 2, NameOneWord(data.insuredName.value));
      result.warnings := AddIf(result.warnings, |data.insuredName.value| < 5, NameTooShort(data.insuredName.value));
      result.warnings := AddIf(result.warnings, |data.insuredName.value| > 100, NameTooLong(data.insuredName.value));
    }
  }

  /** Too short or too long, never both. */
  function PolicyNumberWarnings(ws: seq<Warning>, policyNumber: Option<string>): (r: seq<Warning>)
    ensures |ws| <= |r| <= |ws| + 1 && r[..|ws|] == ws
  {
    if IsNullOrWhiteSpace(policyNumber) then ws
    else
      var n := policyNumber.value;
      AddIf(AddIf(ws, |n| < 6, PolicyNumberTooShort(n)), |n| > 20, PolicyNumberTooLong(n))
  }

  method ValidatePolicyNumber(data: PolicyData, result: ValidationResult)
    modifies result
    ensures result.warnings == PolicyNumberWarnings(old(result.warnings), data.policyNumber)
    ensures result.errors == old(result.errors) && result.isValid == old(result.isValid)
  {
    if !IsNullOrWhiteSpace(data.policyNumber) {
      result.warnings := AddIf(result.warnings, |data.policyNumber.value| < 6, PolicyNumberTooShort(data.policyNumber.value));
      result.warnings := AddIf(result.warnings, |data.policyNumber.value| > 20, PolicyNumberTooLong(data.policyNumber.value));
    }
  }

  // ---------------------------------------------------------------- confidence

  /** Below 0.5 very low, below 0.7 low, never both. */
  function ConfidenceWarnings(ws: seq<Warning>, score: real): (r: seq<Warning>)
    ensures |ws| <= |r| <= |ws| + 1 && r[..|ws|] == ws
    ensures r == ws <==> score >= 0.7
  {
    if score < 0.5 then ws + [ConfidenceVeryLow(score)]
    else if score < 0.7 then ws + [ConfidenceLow(score)]
    else ws
  }

  method ValidateConfidence(data: PolicyData, result: ValidationResult)
    modifies result
    ensures result.warnings == ConfidenceWarnings(old(result.warnings), data.confidenceScore)
    ensures result.errors == old(result.errors) && result.isValid == old(result.isValid)
  {
    if data.confidenceScore < 0.5 {
      result.warnings := result.warnings + [ConfidenceVeryLow(data.confidenceScore)];
    } else if data.confidenceScore < 0.7 {
      result.warnings := result.warnings + [ConfidenceLow(data.confidenceScore)];
    }
  }

  // ---------------------------------------------------------------- the whole validation

  /** The warnings of the groups after the dates, in the order `Validate` applies them. */
  function LaterWarnings(ws: seq<Warning>, f: Fields): seq<Warning> {
    var w1 := PlateWarnings(MoneyWarnings(ws, f), f.plateNumber);
    var w2 := PolicyNumberWarnings(NameWarnings(w1, f.insuredName), f.policyNumber);
    ConfidenceWarnings(w2, f.confidenceScore)
  }

  /** The groups after the dates: money, identity number, plate, name, policy number and
      confidence. */
  method ValidateLaterGroups(data: PolicyData, result: ValidationResult)
    modifies result
    ensures result.errors == TcNoErrors(old(result.errors), data.insuredTcNo)
    ensures result.warnings == LaterWarnings(old(result.warnings), FieldsOf(data))
    ensures result.isValid == old(result.isValid)
  {
    ValidateMoneyValues(data, result);
    ValidateTcNo(data, result);
    ValidatePlateNumber(data, result);
    ValidateName(data, result);
    ValidatePolicyNumber(data, result);
    ValidateConfidence(data, result);
  }

  /** The errors of the groups up to the point where `AddDays(30)` may throw. */
  function IssuePhaseErrors(errs: seq<Error>, f: Fields): seq<Error>
    requires DatesValid(f)
  {
    EndErrors(MandatoryErrors(errs, f), f.startDate, f.endDate)
  }

  function IssuePhaseWarnings(ws: seq<Warning>, f: Fields, now: Instant): seq<Warning>
    requires DatesValid(f) && ClockInRange(now)
  {
    DateWarnings(MandatoryWarnings(ws, f), f, now)
  }

  /** The errors of `Validate`: the groups in order from an empty list; when `AddDays(30)`
      throws, the catch's error takes the place of the remaining groups. */
  function ValidationErrors(f: Fields): seq<Error>
    requires DatesValid(f)
  {
    var e := IssuePhaseErrors([], f);
    if IssueThrows(f.issueDate, f.startDate) then e + [ValidationFailed] else TcNoErrors(e, f.insuredTcNo)
  }

  function ValidationWarnings(f: Fields, now: Instant): seq<Warning>
    requires DatesValid(f) && ClockInRange(now)
  {
    var w := IssuePhaseWarnings([], f, now);
    if IssueThrows(f.issueDate, f.startDate) then w else LaterWarnings(w, f)
  }

  /** The groups up to the point where `AddDays(30)` may throw: the mandatory fields and the
      dates. */
  method ValidateUpToIssue(data: PolicyData, result: ValidationResult, now: Instant) returns (thrown: bool)
    requires DatesValid(FieldsOf(data)) && ClockInRange(now)
    modifies result, data`durationDays
    ensures FieldsOf(data) == old(FieldsOf(data))
    ensures thrown == IssueThrows(old(data.issueDate), old(data.startDate))
    ensures result.errors == IssuePhaseErrors(old(result.errors), old(FieldsOf(data)))
    ensures result.warnings == IssuePhaseWarnings(old(result.warnings), old(FieldsOf(data)), now)
    ensures result.isValid == old(result.isValid)
    ensures data.durationDays == match WrittenDuration(data.startDate, data.endDate)
                                 case Some(d) => Some(d)
                                 case None => old(data.durationDays)
  {
    ghost var f := FieldsOf(data);
    ValidateMandatoryFields(data, result);
    ghost var e1, w1 := result.errors, result.warnings;
    thrown := ValidateDates(data, result, now);
    assert FieldsOf(data) == f;
  }

  /** What follows the date rules: when `AddDays(30)` threw, the catch appends its error and
      the verdict is false; otherwise the remaining groups run and the record is valid
      exactly when no error was reported. */
  method ValidateAfterIssue(data: PolicyData, result: ValidationResult, thrown: bool)
    modifies result
    ensures result.errors == if thrown then old(result.errors) + [ValidationFailed]
                             else TcNoErrors(old(result.errors), data.insuredTcNo)
    ensures result.warnings == if thrown then old(result.warnings)
                               else LaterWarnings(old(result.warnings), FieldsOf(data))
    ensures result.isValid <==> !thrown && result.errors == []
  {
    if thrown {
      result.errors := result.errors + [ValidationFailed];
      result.isValid := false;
    } else {
      ValidateLaterGroups(data, result);
      result.isValid := |result.errors| == 0;
    }
  }

  /** `Validate`: the rule groups in order, then the verdict; on the exception the catch
      appends its error and the verdict is false. */
  method Validate(data: PolicyData, now: Instant) returns (result: ValidationResult)
    requires DatesValid(FieldsOf(data)) && ClockInRange(now)
    modifies data`durationDays
    ensures fresh(result)
    ensures FieldsOf(data) == old(FieldsOf(data))
    ensures result.errors == ValidationErrors(old(FieldsOf(data)))
    ensures result.warnings == ValidationWarnings(old(FieldsOf(data)), now)
    ensures result.isValid <==> result.errors == []
    ensures data.durationDays == match WrittenDuration(data.startDate, data.endDate)
                                 case Some(d) => Some(d)
                                 case None => old(data.durationDays)
  {
    result := new ValidationResult();
    var thrown := ValidateUpToIssue(data, result, now);
    ValidateAfterIssue(data, result, thrown);
  }
}
