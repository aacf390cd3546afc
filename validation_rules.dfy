/** What `ValidationService.Validate` reports about a record, stated message by message: for
    every error and every warning, exactly when it appears in the result. The rule groups
    build their lists step by step; the predicates here say the same thing per message, in
    days rather than ticks, and the lemmas connect the two. */
module ValidationRules {
  import opened Wrappers
  import opened Text
  import opened Calendar
  import opened Models
  import opened ValidationService

  // Each rule group has its own predicate, false for the messages of the other groups, so
  // that a group's lemma only ever looks at its own messages.

  /** When each mandatory-field error is raised. */
  predicate MandatoryRaised(f: Fields, y: Error) {
    match y
    case UnknownCompany => f.company == Unknown
    case MissingPolicyNumber => IsNullOrWhiteSpace(f.policyNumber)
    case MissingStartDate => f.startDate.None?
    case MissingEndDate => f.endDate.None?
    case MissingPremium => f.grossPremium.None? && f.netPremium.None?
    case MissingPlate(t) => t == f.policyType && (t == Trafik || t == Kasko) && IsNullOrWhiteSpace(f.plateNumber)
    case _ => false
  }

  /** When each end-date error is raised, in days. */
  predicate EndRaised(f: Fields, y: Error)
    requires DatesValid(f)
  {
    match y
    case EndBeforeStart(e, s) =>
      f.startDate == Some(s) && f.endDate == Some(e) && DayNumber(e) < DayNumber(s)
    case InvalidDuration(d) =>
      f.startDate.Some? && f.endDate.Some? && d == Duration(f.startDate.value, f.endDate.value) && d < 1
    case _ => false
  }

  /** When each identity-number error is raised. */
  predicate TcNoRaised(f: Fields, y: Error) {
    match y
    case TcNoLength(t) => f.insuredTcNo == Some(t) && !IsBlank(t) && |t| != 11
    case TcNoNotDigits(t) => f.insuredTcNo == Some(t) && !IsBlank(t) && |t| == 11 && !AllDigits(t)
    case TcNoLeadingZero(t) => f.insuredTcNo == Some(t) && |t| == 11 && AllDigits(t) && t[0] == '0'
    case _ => false
  }

  /** When each error is raised: the identity-number rules only when `AddDays(30)` does not
      throw, the catch's error exactly when it does. */
  predicate Raised(f: Fields, y: Error)
    requires DatesValid(f)
  {
    || MandatoryRaised(f, y)
    || EndRaised(f, y)
    || (if IssueThrows(f.issueDate, f.startDate) then y == ValidationFailed else TcNoRaised(f, y))
  }

  function PremiumOf(f: Fields, p: Premium): Option<real> {
    match p
    case Net => f.netPremium
    case Gross => f.grossPremium
  }

  /** The plate without its spaces, when the record holds a plate that is not blank. */
  function CleanPlate(f: Fields): Option<string> {
    if IsNullOrWhiteSpace(f.plateNumber) then None else Some(RemoveChar(f.plateNumber.value, ' '))
  }

  predicate MandatoryWarned(f: Fields, w: Warning) {
    w == ZeroPremiums && f.grossPremium == Some(0.0) && f.netPremium == Some(0.0)
  }

  /** When each start-date warning is given, in days. */
  predicate StartWarned(f: Fields, now: Instant, w: Warning)
    requires DatesValid(f) && ClockInRange(now)
  {
    match w
    case StartTooLate(s) => f.startDate == Some(s) && DayNumber(s) > DayNumber(YearsFromNow(now, 2).date)
    case StartTooEarly(s) =>
      var limit := YearsFromNow(now, -10);
      f.startDate == Some(s) && (DayNumber(s) < DayNumber(limit.date) || (s == limit.date && now.timeOfDay > 0))
    case _ => false
  }

  predicate EndWarned(f: Fields, w: Warning)
    requires DatesValid(f)
  {
    match w
    case DurationTooLong(d) =>
      f.startDate.Some? && f.endDate.Some? && d == Duration(f.startDate.value, f.endDate.value) && d > 365 * 5
    case _ => false
  }

  /** When each issue-date warning is given, in days. */
  predicate IssueWarned(f: Fields, now: Instant, w: Warning)
    requires DatesValid(f) && ClockInRange(now)
  {
    match w
    case IssueLongAfterStart(i) =>
      f.issueDate == Some(i) && f.startDate.Some? && DayNumber(i) > DayNumber(f.startDate.value) + 30
    case IssueInFuture(i) => f.issueDate == Some(i) && DayNumber(i) >= DayNumber(now.date) + 2
    case IssueTooEarly(i) =>
      var limit := YearsFromNow(now, -10);
      f.issueDate == Some(i) && (DayNumber(i) < DayNumber(limit.date) || (i == limit.date && now.timeOfDay > 0))
    case _ => false
  }

  /** When each warning about the premiums and the tax is given. */
  predicate MoneyWarned(f: Fields, w: Warning) {
    match w
    case PremiumNegative(p, a) => PremiumOf(f, p) == Some(a) && a < 0.0
    case PremiumZero(p) => PremiumOf(f, p) == Some(0.0)
    case PremiumTooHigh(p, a) => PremiumOf(f, p) == Some(a) && a > 1000000.0
    case GrossBelowNet(g, n) => f.grossPremium == Some(g) && f.netPremium == Some(n) && g < n
    case PremiumGapTooHigh(pc) =>
      && f.grossPremium.Some? && f.netPremium.Some?
      && var g, n := f.grossPremium.value, f.netPremium.value;
         n > 0.0 && g * 2.0 > n * 3.0 && pc == GapPercent(g, n)
    case TaxNegative(a) => f.giderVergisi == Some(a) && a < 0.0
    case _ => false
  }

  predicate PlateWarned(f: Fields, w: Warning) {
    match w
    case PlateFormat(p) =>
      f.plateNumber == Some(p) && CleanPlate(f).Some? && (|CleanPlate(f).value| < 6 || |CleanPlate(f).value| > 8)
    case PlateProvinceNotDigits(p) =>
      && f.plateNumber == Some(p) && CleanPlate(f).Some?
      && var c := CleanPlate(f).value;
         |c| >= 2 && !(IsDigit(c[0]) && IsDigit(c[1]))
    case ProvinceCodeOutOfRange(code) =>
      && CleanPlate(f).Some?
      && var c := CleanPlate(f).value;
         |c| >= 2 && IsDigit(c[0]) && IsDigit(c[1]) && code == ProvinceCode(c) && (code == 0 || code > 81)
    case _ => false
  }

  predicate NameWarned(f: Fields, w: Warning) {
    match w
    case NameOneWord(n) => f.insuredName == Some(n) && !IsBlank(n) && |SplitRemoveEmpty(n, ' ')| < 2
    case NameTooShort(n) => f.insuredName == Some(n) && !IsBlank(n) && |n| < 5
    case NameTooLong(n) => f.insuredName == Some(n) && |n| > 100 && !IsBlank(n)
    case _ => false
  }

  predicate PolicyNumberWarned(f: Fields, w: Warning) {
    match w
    case PolicyNumberTooShort(n) => f.policyNumber == Some(n) && !IsBlank(n) && |n| < 6
    case PolicyNumberTooLong(n) => f.policyNumber == Some(n) && !IsBlank(n) && |n| > 20
    case _ => false
  }

  predicate ConfidenceWarned(f: Fields, w: Warning) {
    match w
    case ConfidenceVeryLow(s) => s == f.confidenceScore && s < 0.5
    case ConfidenceLow(s) => s == f.confidenceScore && 0.5 <= s < 0.7
    case _ => false
  }

  /** When each warning is given: the rules from the issue date on only when `AddDays(30)`
      does not throw. */
  predicate Warned(f: Fields, now: Instant, w: Warning)
    requires DatesValid(f) && ClockInRange(now)
  {
    || MandatoryWarned(f, w) || StartWarned(f, now, w) || EndWarned(f, w)
    || (&& !IssueThrows(f.issueDate, f.startDate)
        && (|| IssueWarned(f, now, w) || MoneyWarned(f, w) || PlateWarned(f, w)
            || NameWarned(f, w) || PolicyNumberWarned(f, w) || ConfidenceWarned(f, w)))
  }

  // ---------------------------------------------------------------- ticks as days

  /** Two midnights compare as their days do. */
  lemma MidnightsOrder(a: Date, b: Date)
    requires IsValidDate(a) && IsValidDate(b)
    ensures Ticks(a) < Ticks(b) <==> DayNumber(a) < DayNumber(b)
  {
    MidnightAfterInstant(a, Instant(b, 0));
  }

  /** Issued more than thirty days of ticks after the start: more than thirty days later. */
  lemma LongAfterByDay(i: Date, s: Date)
    requires IsValidDate(i) && IsValidDate(s)
    ensures Ticks(i) > Ticks(s) + 30 * TicksPerDay <==> DayNumber(i) > DayNumber(s) + 30
  {
    assert Ticks(s) + 30 * TicksPerDay == (DayNumber(s) + 30) * TicksPerDay;
    var d := DayNumber(i) - (DayNumber(s) + 30);
    assert Ticks(i) - (Ticks(s) + 30 * TicksPerDay) == d * TicksPerDay;
    if d > 0 {
      assert d * TicksPerDay >= TicksPerDay;
    } else {
      assert d * TicksPerDay <= 0;
    }
  }

  /** A midnight lies more than a day after `now` exactly when it is two or more days later. */
  lemma InFutureByDay(i: Date, now: Instant)
    requires IsValidDate(i) && IsValidInstant(now)
    ensures Ticks(i) > InstantTicks(now) + TicksPerDay <==> DayNumber(i) >= DayNumber(now.date) + 2
  {
    var k := DayNumber(i) - DayNumber(now.date) - 1;
    assert Ticks(i) - (InstantTicks(now) + TicksPerDay) == k * TicksPerDay - now.timeOfDay;
    if k >= 1 {
      assert k * TicksPerDay >= TicksPerDay;
    } else {
      assert k * TicksPerDay <= 0;
    }
  }

  /** A gap above fifty percent of a positive net premium: a gross premium above one and a
      half times it. */
  lemma GapAboveHalf(g: real, n: real)
    requires n > 0.0
    ensures GapPercent(g, n) > 50.0 <==> g * 2.0 > n * 3.0
  {
    var q := (g - n) / n;
    assert q * n == g - n;
    assert GapPercent(g, n) == q * 100.0;
    if q > 0.5 {
      assert q * n > 0.5 * n;
    } else {
      assert q * n <= 0.5 * n;
    }
  }

  /** Three rules in a row append exactly the messages whose conditions hold. */
  lemma AddIf3Contents<T>(s: seq<T>, c1: bool, x1: T, c2: bool, x2: T, c3: bool, x3: T, y: T)
    ensures y in AddIf(AddIf(AddIf(s, c1, x1), c2, x2), c3, x3) <==>
            y in s || (c1 && y == x1) || (c2 && y == x2) || (c3 && y == x3)
  {
    AddIfContents(s, c1, x1, y);
    AddIfContents(AddIf(s, c1, x1), c2, x2, y);
    AddIfContents(AddIf(AddIf(s, c1, x1), c2, x2), c3, x3, y);
  }

  // ---------------------------------------------------------------- the error groups

  lemma MandatoryErrorsRaised(errs: seq<Error>, f: Fields, y: Error)
    ensures y in MandatoryErrors(errs, f) <==> y in errs || MandatoryRaised(f, y)
  {
    var e1 := AddIf(errs, f.company == Unknown, UnknownCompany);
    var e2 := AddIf(e1, IsNullOrWhiteSpace(f.policyNumber), MissingPolicyNumber);
    var e3 := AddIf(e2, f.startDate.None?, MissingStartDate);
    var e4 := AddIf(e3, f.endDate.None?, MissingEndDate);
    var e5 := AddIf(e4, NoPremium(f.grossPremium, f.netPremium), MissingPremium);
    AddIfContents(errs, f.company == Unknown, UnknownCompany, y);
    AddIfContents(e1, IsNullOrWhiteSpace(f.policyNumber), MissingPolicyNumber, y);
    AddIfContents(e2, f.startDate.None?, MissingStartDate, y);
    AddIfContents(e3, f.endDate.None?, MissingEndDate, y);
    AddIfContents(e4, NoPremium(f.grossPremium, f.netPremium), MissingPremium, y);
    AddIfContents(e5, PlateMissing(f.policyType, f.plateNumber), MissingPlate(f.policyType), y);
  }

  lemma EndErrorsRaised(errs: seq<Error>, f: Fields, y: Error)
    requires DatesValid(f)
    ensures y in EndErrors(errs, f.startDate, f.endDate) <==> y in errs || EndRaised(f, y)
  {
    if f.startDate.Some? && f.endDate.Some? {
      var e, s := f.endDate.value, f.startDate.value;
      var e1 := AddIf(errs, Ticks(e) < Ticks(s), EndBeforeStart(e, s));
      MidnightsOrder(e, s);
      AddIfContents(errs, Ticks(e) < Ticks(s), EndBeforeStart(e, s), y);
      AddIfContents(e1, Duration(s, e) < 1, InvalidDuration(Duration(s, e)), y);
    }
  }

  lemma TcNoErrorsRaised(errs: seq<Error>, f: Fields, y: Error)
    ensures y in TcNoErrors(errs, f.insuredTcNo) <==> y in errs || TcNoRaised(f, y)
  {
    if y.TcNoLeadingZero? && TcNoRaised(f, y) {
      assert !IsWhiteSpace(y.tcNo[0]);
    }
  }

  /** The errors `Validate` reports are exactly the raised ones. */
  lemma ErrorsAreRaised(f: Fields, y: Error)
    requires DatesValid(f)
    ensures y in ValidationErrors(f) <==> Raised(f, y)
  {
    var m := MandatoryErrors([], f);
    var e := EndErrors(m, f.startDate, f.endDate);
    MandatoryErrorsRaised([], f, y);
    EndErrorsRaised(m, f, y);
    if !IssueThrows(f.issueDate, f.startDate) {
      TcNoErrorsRaised(e, f, y);
    }
  }

  // ---------------------------------------------------------------- the warning groups

  lemma MandatoryWarningsGiven(ws: seq<Warning>, f: Fields, w: Warning)
    ensures w in MandatoryWarnings(ws, f) <==> w in ws || MandatoryWarned(f, w)
  {
    AddIfContents(ws, BothPremiumsZero(f.grossPremium, f.netPremium), ZeroPremiums, w);
  }

  lemma StartWarningsGiven(ws: seq<Warning>, f: Fields, now: Instant, w: Warning)
    requires DatesValid(f) && ClockInRange(now)
    ensures w in StartWarnings(ws, f.startDate, now) <==> w in ws || StartWarned(f, now, w)
  {
    if f.startDate.Some? {
      var s := f.startDate.value;
      var late, early := YearsFromNow(now, 2), YearsFromNow(now, -10);
      MidnightAfterInstant(s, late);
      MidnightAfterInstant(s, early);
      var w1 := AddIf(ws, Ticks(s) > InstantTicks(late), StartTooLate(s));
      AddIfContents(ws, Ticks(s) > InstantTicks(late), StartTooLate(s), w);
      AddIfContents(w1, Ticks(s) < InstantTicks(early), StartTooEarly(s), w);
    }
  }

  lemma EndWarningsGiven(ws: seq<Warning>, f: Fields, w: Warning)
    requires DatesValid(f)
    ensures w in EndWarnings(ws, f.startDate, f.endDate) <==> w in ws || EndWarned(f, w)
  {
    if f.startDate.Some? && f.endDate.Some? {
      var d := Duration(f.startDate.value, f.endDate.value);
      AddIfContents(ws, d > 365 * 5, DurationTooLong(d), w);
    }
  }

  // The issue-date warnings in ticks, as the rules state them, one warning at a time.

  lemma LongAfterInTicks(f: Fields, now: Instant, i: Date)
    requires DatesValid(f) && ClockInRange(now) && f.issueDate == Some(i)
    ensures IssueWarned(f, now, IssueLongAfterStart(i)) <==> IssuedLongAfterStart(i, f.startDate)
  {
    if f.startDate.Some? {
      LongAfterByDay(i, f.startDate.value);
    }
  }

  lemma InFutureInTicks(f: Fields, now: Instant, i: Date)
    requires DatesValid(f) && ClockInRange(now) && f.issueDate == Some(i)
    ensures IssueWarned(f, now, IssueInFuture(i)) <==> Ticks(i) > InstantTicks(now) + TicksPerDay
  {
    InFutureByDay(i, now);
  }

  lemma TooEarlyInTicks(f: Fields, now: Instant, i: Date)
    requires DatesValid(f) && ClockInRange(now) && f.issueDate == Some(i)
    ensures IssueWarned(f, now, IssueTooEarly(i)) <==> Ticks(i) < InstantTicks(YearsFromNow(now, -10))
  {
    MidnightAfterInstant(i, YearsFromNow(now, -10));
  }

  lemma OtherNotIssueWarned(f: Fields, now: Instant, i: Date, w: Warning)
    requires DatesValid(f) && ClockInRange(now) && f.issueDate == Some(i)
    requires w != IssueLongAfterStart(i) && w != IssueInFuture(i) && w != IssueTooEarly(i)
    ensures !IssueWarned(f, now, w)
  {
  }

  lemma IssueWarningsGiven(ws: seq<Warning>, f: Fields, now: Instant, w: Warning)
    requires DatesValid(f) && ClockInRange(now) && !IssueThrows(f.issueDate, f.startDate)
    ensures w in IssueWarnings(ws, f.issueDate, f.startDate, now) <==> w in ws || IssueWarned(f, now, w)
  {
    if f.issueDate.Some? {
      var i := f.issueDate.value;
      AddIf3Contents(ws, IssuedLongAfterStart(i, f.startDate), IssueLongAfterStart(i),
                     Ticks(i) > InstantTicks(now) + TicksPerDay, IssueInFuture(i),
                     Ticks(i) < InstantTicks(YearsFromNow(now, -10)), IssueTooEarly(i), w);
      if w == IssueLongAfterStart(i) {
        LongAfterInTicks(f, now, i);
      } else if w == IssueInFuture(i) {
        InFutureInTicks(f, now, i);
      } else if w == IssueTooEarly(i) {
        TooEarlyInTicks(f, now, i);
      } else {
        OtherNotIssueWarned(f, now, i, w);
      }
    }
  }

  /** The comparison rules report exactly the comparison warnings that are given. */
  lemma ComparisonWarningsGiven(ws: seq<Warning>, f: Fields, w: Warning)
    ensures w in ComparisonWarnings(ws, f.grossPremium, f.netPremium) <==>
            w in ws || ((w.GrossBelowNet? || w.PremiumGapTooHigh?) && MoneyWarned(f, w))
  {
    if f.grossPremium.Some? && f.netPremium.Some? {
      var g, n := f.grossPremium.value, f.netPremium.value;
      var c1 := AddIf(ws, g < n, GrossBelowNet(g, n));
      AddIfContents(ws, g < n, GrossBelowNet(g, n), w);
      if n > 0.0 {
        GapAboveHalf(g, n);
        AddIfContents(c1, GapPercent(g, n) > 50.0, PremiumGapTooHigh(GapPercent(g, n)), w);
      }
    }
  }

  lemma MoneyWarningsGiven(ws: seq<Warning>, f: Fields, w: Warning)
    ensures w in MoneyWarnings(ws, f) <==> w in ws || MoneyWarned(f, w)
  {
    var w1 := PremiumLevelWarnings(ws, Net, f.netPremium);
    var w2 := PremiumLevelWarnings(w1, Gross, f.grossPremium);
    ComparisonWarningsGiven(w2, f, w);
  }

  lemma PlateWarningsGiven(ws: seq<Warning>, f: Fields, w: Warning)
    ensures w in PlateWarnings(ws, f.plateNumber) <==> w in ws || PlateWarned(f, w)
  {
    if !IsNullOrWhiteSpace(f.plateNumber) {
      var p := f.plateNumber.value;
      var c := RemoveChar(p, ' ');
      var w1 := AddIf(ws, SuspectPlateLength(c), PlateFormat(p));
      AddIfContents(ws, SuspectPlateLength(c), PlateFormat(p), w);
      if |c| >= 2 && IsDigit(c[0]) && IsDigit(c[1]) {
        AddIfContents(w1, OutsideProvinceRange(ProvinceCode(c)), ProvinceCodeOutOfRange(ProvinceCode(c)), w);
      }
    }
  }

  lemma NameWarningsGiven(ws: seq<Warning>, f: Fields, w: Warning)
    ensures w in NameWarnings(ws, f.insuredName) <==> w in ws || NameWarned(f, w)
  {
    if !IsNullOrWhiteSpace(f.insuredName) {
      var n := f.insuredName.value;
      var oneWord := |SplitRemoveEmpty(n, ' ')| < 2;
      AddIf3Contents(ws, oneWord, NameOneWord(n), |n| < 5, NameTooShort(n), |n| > 100, NameTooLong(n), w);
      assert NameWarned(f, w) <==>
        (oneWord && w == NameOneWord(n)) || (|n| < 5 && w == NameTooShort(n)) || (|n| > 100 && w == NameTooLong(n));
    }
  }

  lemma PolicyNumberWarningsGiven(ws: seq<Warning>, f: Fields, w: Warning)
    ensures w in PolicyNumberWarnings(ws, f.policyNumber) <==> w in ws || PolicyNumberWarned(f, w)
  {
    if !IsNullOrWhiteSpace(f.policyNumber) {
      var n := f.policyNumber.value;
      AddIfContents(ws, |n| < 6, PolicyNumberTooShort(n), w);
      AddIfContents(AddIf(ws, |n| < 6, PolicyNumberTooShort(n)), |n| > 20, PolicyNumberTooLong(n), w);
    }
  }

  lemma ConfidenceWarningsGiven(ws: seq<Warning>, f: Fields, w: Warning)
    ensures w in ConfidenceWarnings(ws, f.confidenceScore) <==> w in ws || ConfidenceWarned(f, w)
  {
  }

  /** The groups up to the point where `AddDays(30)` may throw report exactly their given
      warnings, the issue-date ones only when it does not throw. */
  lemma IssuePhaseWarningsGiven(f: Fields, now: Instant, w: Warning)
    requires DatesValid(f) && ClockInRange(now)
    ensures w in IssuePhaseWarnings([], f, now) <==>
            || MandatoryWarned(f, w) || StartWarned(f, now, w) || EndWarned(f, w)
            || (!IssueThrows(f.issueDate, f.startDate) && IssueWarned(f, now, w))
  {
    var m := MandatoryWarnings([], f);
    var s := StartWarnings(m, f.startDate, now);
    var e := EndWarnings(s, f.startDate, f.endDate);
    MandatoryWarningsGiven([], f, w);
    StartWarningsGiven(m, f, now, w);
    EndWarningsGiven(s, f, w);
    if !IssueThrows(f.issueDate, f.startDate) {
      IssueWarningsGiven(e, f, now, w);
    }
  }

  /** The groups after the dates report exactly their given warnings. */
  lemma LaterWarningsGiven(ws: seq<Warning>, f: Fields, w: Warning)
    ensures w in LaterWarnings(ws, f) <==>
            || w in ws || MoneyWarned(f, w) || PlateWarned(f, w)
            || NameWarned(f, w) || PolicyNumberWarned(f, w) || ConfidenceWarned(f, w)
  {
    var mo := MoneyWarnings(ws, f);
    var p := PlateWarnings(mo, f.plateNumber);
    var n := NameWarnings(p, f.insuredName);
    var pn := PolicyNumberWarnings(n, f.policyNumber);
    MoneyWarningsGiven(ws, f, w);
    PlateWarningsGiven(mo, f, w);
    NameWarningsGiven(p, f, w);
    PolicyNumberWarningsGiven(n, f, w);
    ConfidenceWarningsGiven(pn, f, w);
  }

  /** The warnings `Validate` reports are exactly the given ones. */
  lemma WarningsAreGiven(f: Fields, now: Instant, w: Warning)
    requires DatesValid(f) && ClockInRange(now)
    ensures w in ValidationWarnings(f, now) <==> Warned(f, now, w)
  {
    IssuePhaseWarningsGiven(f, now, w);
    if !IssueThrows(f.issueDate, f.startDate) {
      LaterWarningsGiven(IssuePhaseWarnings([], f, now), f, w);
    }
  }

  // ---------------------------------------------------------------- consequences

  /** Every mandatory field is present: a known company, a policy number, both dates, a
      premium, and a plate for the motor policies. */
  predicate MandatoryPresent(f: Fields) {
    && f.company != Unknown
    && !IsNullOrWhiteSpace(f.policyNumber)
    && f.startDate.Some? && f.endDate.Some?
    && (f.grossPremium.Some? || f.netPremium.Some?)
    && (RequiresPlate(f.policyType) ==> !IsNullOrWhiteSpace(f.plateNumber))
  }

  /** A record the rules accept: every mandatory field present, the end after the start, no
      exception, and an identity number that is blank or well formed. */
  predicate Acceptable(f: Fields)
    requires DatesValid(f)
  {
    && MandatoryPresent(f)
    && DayNumber(f.startDate.value) < DayNumber(f.endDate.value)
    && !IssueThrows(f.issueDate, f.startDate)
    && (IsNullOrWhiteSpace(f.insuredTcNo) || WellFormedTcNo(f.insuredTcNo.value))
  }

  /** The missing-field error for the first mandatory field that is absent. */
  function MandatoryViolation(f: Fields): (y: Error)
    requires !MandatoryPresent(f)
    ensures MandatoryRaised(f, y)
  {
    if f.company == Unknown then UnknownCompany
    else if IsNullOrWhiteSpace(f.policyNumber) then MissingPolicyNumber
    else if f.startDate.None? then MissingStartDate
    else if f.endDate.None? then MissingEndDate
    else if f.grossPremium.None? && f.netPremium.None? then MissingPremium
    else MissingPlate(f.policyType)
  }

  /** The identity-number error for a number that is neither blank nor well formed. */
  function TcNoViolation(f: Fields): (y: Error)
    requires !IsNullOrWhiteSpace(f.insuredTcNo) && !WellFormedTcNo(f.insuredTcNo.value)
    ensures TcNoRaised(f, y)
  {
    var t := f.insuredTcNo.value;
    if |t| != 11 then TcNoLength(t)
    else if !AllDigits(t) then TcNoNotDigits(t)
    else TcNoLeadingZero(t)
  }

  /** An error raised against a record that is not acceptable: the first condition it
      fails. */
  function FirstViolation(f: Fields): (y: Error)
    requires DatesValid(f) && !Acceptable(f)
    ensures Raised(f, y)
  {
    if !MandatoryPresent(f) then MandatoryViolation(f)
    else if DayNumber(f.endDate.value) <= DayNumber(f.startDate.value) then
      InvalidDuration(Duration(f.startDate.value, f.endDate.value))
    else if IssueThrows(f.issueDate, f.startDate) then ValidationFailed
    else TcNoViolation(f)
  }

  /** An acceptable record fails no rule. */
  lemma AcceptableNoErrors(f: Fields)
    requires DatesValid(f) && Acceptable(f)
    ensures ValidationErrors(f) == []
  {
    var s, e := f.startDate.value, f.endDate.value;
    assert MandatoryErrors([], f) == [];
    MidnightsOrder(e, s);
    assert EndErrors([], f.startDate, f.endDate) == [];
  }

  /** `Validate` finds a record valid exactly when it is acceptable; warnings never matter. */
  lemma NoErrorsIffAcceptable(f: Fields)
    requires DatesValid(f)
    ensures ValidationErrors(f) == [] <==> Acceptable(f)
  {
    if Acceptable(f) {
      AcceptableNoErrors(f);
    } else {
      var y := FirstViolation(f);
      ErrorsAreRaised(f, y);
    }
  }

  // Each consequence below is proved in two steps: what the predicates say about the
  // messages involved, in a lemma that does not mention the lists, and then the transfer
  // to the lists through `ErrorsAreRaised` and `WarningsAreGiven`.

  lemma DurationVerdicts(f: Fields, now: Instant, d: int)
    requires DatesValid(f) && ClockInRange(now) && f.startDate.Some? && f.endDate.Some?
    requires d == Duration(f.startDate.value, f.endDate.value)
    ensures Raised(f, InvalidDuration(d)) <==> d < 1
    ensures Warned(f, now, DurationTooLong(d)) <==> d > 365 * 5
  {
  }

  /** When both dates are present, the duration is written, reported as too long, or reported
      as invalid: exactly one of the three. */
  lemma DurationOutcomes(f: Fields, now: Instant)
    requires DatesValid(f) && ClockInRange(now) && f.startDate.Some? && f.endDate.Some?
    ensures var d := Duration(f.startDate.value, f.endDate.value);
            var written, tooLong, invalid :=
              WrittenDuration(f.startDate, f.endDate) == Some(d),
              DurationTooLong(d) in ValidationWarnings(f, now),
              InvalidDuration(d) in ValidationErrors(f);
            (written || tooLong || invalid) && !(written && tooLong) && !(written && invalid) && !(tooLong && invalid)
  {
    var d := Duration(f.startDate.value, f.endDate.value);
    ErrorsAreRaised(f, InvalidDuration(d));
    WarningsAreGiven(f, now, DurationTooLong(d));
    DurationVerdicts(f, now, d);
  }

  lemma EndBeforeStartRaised(f: Fields, e: Date, s: Date)
    requires DatesValid(f) && f.startDate == Some(s) && f.endDate == Some(e)
    ensures Raised(f, EndBeforeStart(e, s)) ==> Duration(s, e) < 0 && Raised(f, InvalidDuration(Duration(s, e)))
  {
  }

  /** An end date before the start date is reported twice: as such, and as a duration below
      one day. */
  lemma EndBeforeStartAlsoInvalid(f: Fields)
    requires DatesValid(f) && f.startDate.Some? && f.endDate.Some?
    ensures var s, e := f.startDate.value, f.endDate.value;
            EndBeforeStart(e, s) in ValidationErrors(f) ==>
              Duration(s, e) < 0 && InvalidDuration(Duration(s, e)) in ValidationErrors(f)
  {
    var s, e := f.startDate.value, f.endDate.value;
    ErrorsAreRaised(f, EndBeforeStart(e, s));
    ErrorsAreRaised(f, InvalidDuration(Duration(s, e)));
    EndBeforeStartRaised(f, e, s);
  }

  lemma PremiumVerdicts(f: Fields, now: Instant)
    requires DatesValid(f) && ClockInRange(now)
    ensures Raised(f, MissingPremium) ==> !Warned(f, now, ZeroPremiums)
  {
  }

  /** A record without premiums is an error, two zero premiums only a warning; never both. */
  lemma PremiumVerdictsExclusive(f: Fields, now: Instant)
    requires DatesValid(f) && ClockInRange(now)
    ensures MissingPremium in ValidationErrors(f) ==> ZeroPremiums !in ValidationWarnings(f, now)
    ensures ZeroPremiums in ValidationWarnings(f, now) ==> MissingPremium !in ValidationErrors(f)
  {
    ErrorsAreRaised(f, MissingPremium);
    WarningsAreGiven(f, now, ZeroPremiums);
    PremiumVerdicts(f, now);
  }

  lemma MissingPlateRaised(f: Fields, t: PolicyType)
    requires DatesValid(f)
    ensures Raised(f, MissingPlate(t)) ==> t == f.policyType && RequiresPlate(t) && t != FerdiKaza
  {
  }

  /** A plate is never demanded of a personal-accident policy, nor of any policy other than
      motor third-party and motor own-damage. */
  lemma PlateOnlyForMotor(f: Fields, t: PolicyType)
    requires DatesValid(f) && MissingPlate(t) in ValidationErrors(f)
    ensures t == f.policyType && RequiresPlate(t) && t != FerdiKaza
  {
    ErrorsAreRaised(f, MissingPlate(t));
    MissingPlateRaised(f, t);
  }
}
