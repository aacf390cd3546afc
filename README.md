# Insurance policy extraction and validation, modelled in Dafny

This project models the core of the pdf-reader service. The service reads the
plain text of a Turkish insurance policy. It turns that text into a
`PolicyData` record, then checks the record against a set of business rules.

The model follows the source file by file.

- `tc_no_extractor.dfy`, `date_extractor.dfy`, `money_extractor.dfy`,
  `name_extractor.dfy`, `plate_number_extractor.dfy` and
  `policy_number_extractor.dfy` are the field extractors. Each is a chain of
  stages; the first stage that finds a value decides the value and its
  confidence. `field_extractor.dfy` holds that chain and its laws.
- `regex_patterns.dfy` models the shared patterns and `ExtractByKeyword`.
- `company_detector_service.dfy` models the detection of the insurer and of
  the line of business from keyword tables.
- `extractor_orchestrator.dfy` models `ExtractPolicyDataAsync`: the calls in
  their order, the per-field confidence dictionary, the overall confidence
  score, the vehicle details, the cancellation check and the batch loop.
- `validation_service.dfy` models `ValidationService.Validate` and its rule
  groups. `validation_rules.dfy` states each error and warning as a condition
  on the record. It proves that `Validate` reports exactly the errors and
  warnings whose condition holds.
- `models.dfy` holds the enums and the `PolicyData` class. `calendar.dfy`
  models `DateTime` on the proleptic Gregorian calendar. `text.dfy` models
  the .NET string operations the source uses. `decimal_parse.dfy` models
  `decimal.Parse` under the invariant culture. `regex.dfy` holds the abstract
  regex engine.

Loops in the source are methods with loop invariants, proved equal to
specification functions. Examples are the foreach loops over regex matches,
the keyword loops and the nested loops of the company and policy-type
detectors. Code without loops is written as functions.

Inputs that come from outside the code are parameters:

- Issuer-specific regular expressions are an abstract engine, a function from
  a pattern name and a text to its matches, in order. The stage order, the
  capture groups taken, the confidences and the post-processing around each
  pattern are exact.
- The patterns that decide structure are written out as scanners with .NET's
  greedy semantics: `[\d.,]+`, the identity-number pattern, the money pattern,
  the date pattern, the plate pattern, the two policy-number proximity patterns and the
  name-cleaning alternation. Their properties are proved.
- `DateTime.Now` is a parameter `now`.
- The keyword tables of the detectors are parameters, with the shapes of the
  source's literals as requirements.

Arithmetic follows the source wherever it differs from mathematics. The identity-number check
uses C#'s truncating `%`, so a negative difference can never equal a digit
(`TcNoExtractor.TruncatedRemainderExample`). `Math.Round` rounds half to even.

## Model

| member | source | states |
|---|---|---|
| TcNoExtractor.Rem10 | Pdf-Reader/Services/Extractors/TcNoExtractor.cs:63 | C#'s `% 10` on `int`: the result differs from the dividend by a multiple of 10, and a non-zero result has the dividend's sign |
| TcNoExtractor.DigitSum | Pdf-Reader/Services/Extractors/TcNoExtractor.cs:69 | the sum of the first `n` digits lies in 0 .. 9n |
| TcNoExtractor.FirstValidFrom | Pdf-Reader/Services/Extractors/TcNoExtractor.cs:25-35 | the position of the first candidate that passes the checksum; none before it passes; none at all when it returns nothing |
| TcNoExtractor.Extract | Pdf-Reader/Services/Extractors/TcNoExtractor.cs:19-38 | the first 11-digit token that passes `IsValidTcNo`, with confidence 0.95; nothing, with confidence 0, exactly when no token passes |
| TcNoExtractor.ExtractShape | Pdf-Reader/Services/Extractors/TcNoExtractor.cs:43-54 | every extracted number has eleven digits and a non-zero first digit |
| TcNoExtractor.SingleDigitChangeDetected | Pdf-Reader/Services/Extractors/TcNoExtractor.cs:60-72 | changing any one digit of a valid number makes it invalid |
| TcNoExtractor.DigitSumChange | Pdf-Reader/Services/Extractors/TcNoExtractor.cs:69 | replacing one digit moves the sum of the first `n` digits by the difference of the two digits |
| TcNoExtractor.NegativeDifferenceRejected | Pdf-Reader/Services/Extractors/TcNoExtractor.cs:61-66 | when the tenth-digit difference is negative and not a multiple of 10, the number is rejected |
| TcNoExtractor.ValidExample | Pdf-Reader/Services/Extractors/TcNoExtractor.cs:43-72 | "10000000078" passes both digit rules |
| TcNoExtractor.TruncatedRemainderExample | Pdf-Reader/Services/Extractors/TcNoExtractor.cs:61-66 | "19090000098" is rejected: its difference is -11, and the truncating remainder is -1 |
| RegexPatterns.Run | Pdf-Reader/Helpers/RegexPatterns.cs:107-110 | a greedy run of one character class ends at the end of the text or at a character outside the class |
| RegexPatterns.FirstNumericRun | Pdf-Reader/Helpers/RegexPatterns.cs:233 | `[\d.,]+` finds the leftmost maximal run of digits, dots and commas; nothing when there is no such character |
| RegexPatterns.KeywordWindow | Pdf-Reader/Helpers/RegexPatterns.cs:225-230 | the window is the slice of text after the first case-insensitive occurrence of the keyword, `maxDistance` long or cut at the end of the text; none without an occurrence |
| RegexPatterns.KeywordSpan | Pdf-Reader/Services/Extractors/NameExtractor.cs:71-74 | the slice of text from the keyword's first occurrence, `length` long or cut at the end of the text |
| RegexPatterns.FirstNumericToken | Pdf-Reader/Helpers/RegexPatterns.cs:233-234 | the match value is a leftmost maximal numeric run; nothing when the window has no numeric character |
| RegexPatterns.ExtractByKeyword | Pdf-Reader/Helpers/RegexPatterns.cs:223-235 | nothing without the keyword; otherwise the first numeric run of the window, of at most `maxDistance` numeric characters, or nothing when the window has none |
| RegexPatterns.TcNoMatchesFrom | Pdf-Reader/Helpers/RegexPatterns.cs:107-110 | every match of the identity-number pattern has exactly eleven digits |
| RegexPatterns.TcNoMatchesComplete | Pdf-Reader/Helpers/RegexPatterns.cs:107-110 | every position where the pattern matches yields its match: no match is skipped |
| RegexPatterns.TcNoMatchIsWholeRun | Pdf-Reader/Helpers/RegexPatterns.cs:107-110 | a match is a whole run of digits: no digit comes right before or after it |
| RegexPatterns.DateMatchShape | Pdf-Reader/Helpers/RegexPatterns.cs:15-18 | every match of the date pattern is a "d/m/yyyy" token with one- or two-digit fields and '.', '/' or '-' as separators |
| RegexPatterns.DateMatchesShape | Pdf-Reader/Helpers/RegexPatterns.cs:15-18 | every token of the match scan has the date shape |
| RegexPatterns.MoneyMatchAt | Pdf-Reader/Helpers/RegexPatterns.cs:51-54 | a money match starts at a word start and ends after it, inside the text |
| RegexPatterns.MoneyMatchShape | Pdf-Reader/Helpers/RegexPatterns.cs:51-54 | a match is one to three digits, groups of a separator and three digits, and an optional separator and two digits, bounded by `\b` on both sides |
| RegexPatterns.MoneyMatchesShape | Pdf-Reader/Helpers/RegexPatterns.cs:51-54 | every match the scan returns has that shape |
| RegexPatterns.GroupedAmountExample | Pdf-Reader/Helpers/RegexPatterns.cs:49-54 | "1.234,56 TL" has the one match "1.234,56" |
| RegexPatterns.UngroupedAmountExample | Pdf-Reader/Helpers/RegexPatterns.cs:49-54 | "1234.56" has the one match "56": four digits cannot start a match |
| RegexPatterns.PlateMatchAt | Pdf-Reader/Helpers/RegexPatterns.cs:135-138 | a plate match is at least five characters long and lies inside the text |
| RegexPatterns.FirstPlateMatch | Pdf-Reader/Helpers/RegexPatterns.cs:135-138 | the leftmost start where the plate pattern matches; no start before it matches |
| RegexPatterns.PlateTailPieces | Pdf-Reader/Helpers/RegexPatterns.cs:135-138 | the scanner ends at `e` exactly when the text splits into a two-digit code, optional spaces, one to three letters, optional spaces and two to four digits ending at a word boundary |
| PlateNumberExtractor.Clean | Pdf-Reader/Services/Extractors/PlateNumberExtractor.cs:30 | the cleaned candidate has no space and is no longer than the original |
| PlateNumberExtractor.FirstDigit | Pdf-Reader/Services/Extractors/PlateNumberExtractor.cs:106-114 | the position of the first digit from `i` on; no digit before it |
| PlateNumberExtractor.FormatPlate | Pdf-Reader/Services/Extractors/PlateNumberExtractor.cs:91-125 | the loop computes `FormattedPlate`: the leading zero taken off, then the code, letters and numbers separated by spaces when the plate is at least seven long and has letters after the code |
| PlateNumberExtractor.StripLeadingZeroSpec | Pdf-Reader/Services/Extractors/PlateNumberExtractor.cs:94-97 | exactly one leading '0' goes, and only when a digit follows it |
| PlateNumberExtractor.FormatPlateRoundTrip | Pdf-Reader/Services/Extractors/PlateNumberExtractor.cs:91-125 | deleting the spaces of the formatted plate gives back the cleaned plate without its leading zero |
| PlateNumberExtractor.FormattedPlateShape | Pdf-Reader/Services/Extractors/PlateNumberExtractor.cs:100-124 | the plate is spaced exactly when it is at least seven long, its third character is not a digit and a digit follows; then it is code, letters and numbers with a space between each |
| PlateNumberExtractor.FormatExample | Pdf-Reader/Services/Extractors/PlateNumberExtractor.cs:93-120 | "016MA0437" becomes "16 MA 0437" |
| PlateNumberExtractor.SingleDigitCodeExample | Pdf-Reader/Services/Extractors/PlateNumberExtractor.cs:94-120 | "01ABC123" becomes "1A BC 123": the zero of a province code 01 to 09 is dropped too |
| PlateNumberExtractor.FormattedValidPlate | Pdf-Reader/Services/Extractors/PlateNumberExtractor.cs:80-125 | a valid plate, once formatted, has five to nine characters other than spaces, the first a digit |
| PlateNumberExtractor.ValidCandidate | Pdf-Reader/Services/Extractors/PlateNumberExtractor.cs:30-31 | a candidate is kept exactly when its cleaned form passes `IsValidTurkishPlate`, and then it is that cleaned form |
| PlateNumberExtractor.FirstKeywordFrom | Pdf-Reader/Services/Extractors/PlateNumberExtractor.cs:40-61 | the first keyword whose window holds a valid plate; none before it does |
| PlateNumberExtractor.ProximityCandidate | Pdf-Reader/Services/Extractors/PlateNumberExtractor.cs:39-61 | a plate from the keyword stage is valid and has no space |
| PlateNumberExtractor.Extract | Pdf-Reader/Services/Extractors/PlateNumberExtractor.cs:19-78 | the method with its keyword loop computes `PlateExtraction`: the label, then the keywords, then the scan |
| PlateNumberExtractor.ExtractedPlateIsValid | Pdf-Reader/Services/Extractors/PlateNumberExtractor.cs:19-89 | every plate returned is the formatted form of a valid cleaned candidate |
| PlateNumberExtractor.ProximityKeywordOrder | Pdf-Reader/Services/Extractors/PlateNumberExtractor.cs:39-40 | the keyword stage takes the first keyword in the order "Plaka No", "Plaka", "Plate No" that gives a valid plate |
| PlateNumberExtractor.KeywordWindowOnly | Pdf-Reader/Services/Extractors/PlateNumberExtractor.cs:42-53 | only a keyword's first occurrence matters; its candidate is the first plate match in the 50 characters after it |
| PlateNumberExtractor.NoValidCandidate | Pdf-Reader/Services/Extractors/PlateNumberExtractor.cs:19-78 | nothing is found, with confidence 0, exactly when no stage has a valid candidate |
| PlateNumberExtractor.LabelFirst | Pdf-Reader/Services/Extractors/PlateNumberExtractor.cs:23-36 | a valid labelled plate wins over the other stages, with confidence 0.95 |
| PlateNumberExtractor.ScanLast | Pdf-Reader/Services/Extractors/PlateNumberExtractor.cs:63-75 | a plate found only by the whole-text scan carries confidence 0.9 |
| MoneyExtractor.Normalize | Pdf-Reader/Services/Extractors/MoneyExtractor.cs:430-441 | no ',' is left for the parser: in the Turkish convention dots go and the comma becomes a point, otherwise commas go |
| MoneyExtractor.ParseMoney | Pdf-Reader/Services/Extractors/MoneyExtractor.cs:413-459 | a value is read exactly when the rewritten string parses, within the decimal range; after a leading '-' it is the absolute value, so it is not negative |
| MoneyExtractor.TryParseMoney | Pdf-Reader/Services/Extractors/MoneyExtractor.cs:413-459 | the step-by-step rewrite computes `ParseMoney`; on failure the result is 0 |
| MoneyExtractor.GroupedDigits | Pdf-Reader/Services/Extractors/MoneyExtractor.cs:435 | a number grouped by threes holds only digits and separators; without the separators, it is the number's digits |
| MoneyExtractor.ParseTurkishAmount | Pdf-Reader/Services/Extractors/MoneyExtractor.cs:430-443 | "1.234,56"-style text parses back to the amount it writes |
| MoneyExtractor.ParseInternationalAmount | Pdf-Reader/Services/Extractors/MoneyExtractor.cs:437-443 | "1,234.56"-style text parses back to the amount it writes |
| MoneyExtractor.ParseMoneyNegated | Pdf-Reader/Services/Extractors/MoneyExtractor.cs:423-427 | "-x" reads as x does, so a refund reads as its absolute value |
| MoneyExtractor.MoneyNonNegative | Pdf-Reader/Services/Extractors/MoneyExtractor.cs:420-449 | text without any '-' never reads as a negative amount |
| MoneyExtractor.TrailingMinusExample | Pdf-Reader/Services/Extractors/MoneyExtractor.cs:420-449 | "5-" reads as -5: the trailing sign `decimal.Parse` accepts is kept, so an amount that reads can be negative |
| MoneyExtractor.TurkishExample | Pdf-Reader/Services/Extractors/MoneyExtractor.cs:432-436 | "1.234,56" reads as 1234.56 |
| MoneyExtractor.ShortTurkishExample | Pdf-Reader/Services/Extractors/MoneyExtractor.cs:432-436 | "12,50" reads as 12.5 |
| MoneyExtractor.InternationalExample | Pdf-Reader/Services/Extractors/MoneyExtractor.cs:437-441 | "1,234.56" reads as 1234.56 |
| MoneyExtractor.NegativeExample | Pdf-Reader/Services/Extractors/MoneyExtractor.cs:422-451 | "-500,00" reads as 500 |
| MoneyExtractor.EmptyRejected | Pdf-Reader/Services/Extractors/MoneyExtractor.cs:415-457 | the empty string is rejected and the result stays 0 |
| MoneyExtractor.PointRejected | Pdf-Reader/Services/Extractors/MoneyExtractor.cs:443-457 | a lone "." is rejected |
| MoneyExtractor.TwoPointsRejected | Pdf-Reader/Services/Extractors/MoneyExtractor.cs:437-457 | "1.2.3" is rejected |
| MoneyExtractor.ExtractNetPremium | Pdf-Reader/Services/Extractors/MoneyExtractor.cs:43-137 | the first of the seven stages whose capture reads as an amount decides the net premium |
| MoneyExtractor.NetPremiumAxaLastMatch | Pdf-Reader/Services/Extractors/MoneyExtractor.cs:58-83 | for AXA, the last "Net Prim" match decides, whatever the earlier matches hold |
| MoneyExtractor.NetPremiumFirstHit | Pdf-Reader/Services/Extractors/MoneyExtractor.cs:43-137 | the first stage that finds a value decides it, with that stage's confidence |
| MoneyExtractor.NetPremiumNone | Pdf-Reader/Services/Extractors/MoneyExtractor.cs:137 | no net premium, with confidence 0, exactly when no stage finds one |
| MoneyExtractor.NetPremiumAxaOnly | Pdf-Reader/Services/Extractors/MoneyExtractor.cs:59-60 | on text that does not mention AXA, the AXA stage finds nothing |
| MoneyExtractor.ZeyilThirdAmount | Pdf-Reader/Services/Extractors/MoneyExtractor.cs:208-223 | the endorsement stage finds a value exactly when the third amount of the first "Peşin" row reads and is above 0 |
| MoneyExtractor.MaxAmountIsMax | Pdf-Reader/Services/Extractors/MoneyExtractor.cs:340-351 | the loop leaves the largest amount that reads, or 0 when none reads above 0 |
| MoneyExtractor.MaxTlAmount | Pdf-Reader/Services/Extractors/MoneyExtractor.cs:340-351 | the loop over the "<number> TL" matches computes the largest reading |
| MoneyExtractor.AllianzMaximum | Pdf-Reader/Services/Extractors/MoneyExtractor.cs:328-359 | the Allianz stage runs only when neither "Ödenecek Prim" pattern matched, and returns the largest amount when it is above 100 |
| MoneyExtractor.GrossKeywordMoney | Pdf-Reader/Services/Extractors/MoneyExtractor.cs:361-376 | the keyword chain settles on the first keyword's value, and a value that does not read ends the stage |
| MoneyExtractor.ExtractGrossPremium | Pdf-Reader/Services/Extractors/MoneyExtractor.cs:143-393 | the gross premium from the stages in the source's order |
| MoneyExtractor.GrossPremiumAxaLastMatch | Pdf-Reader/Services/Extractors/MoneyExtractor.cs:236-272 | for AXA, after the early stages, the last "Ödenecek Prim" match decides; without one, or when it does not read, no later stage is tried |
| MoneyExtractor.GrossPremiumEarlyHit | Pdf-Reader/Services/Extractors/MoneyExtractor.cs:145-234 | the first early stage that finds a value decides the gross premium, with its confidence |
| MoneyExtractor.SpecificAxaStageUnreachable | Pdf-Reader/Services/Extractors/MoneyExtractor.cs:378-391 | the specific AXA stage never decides: two engines that differ only there give the same gross premium |
| MoneyExtractor.ExtractTax | Pdf-Reader/Services/Extractors/MoneyExtractor.cs:399-411 | the tax capture, read as an amount, with confidence 0.9 |
| MoneyExtractor.FirstAmount | Pdf-Reader/Services/Extractors/MoneyExtractor.cs:22-37 | the first token whose value reads, with confidence 0.7, none before it reading; nothing, with confidence 0, exactly when no token reads |
| MoneyExtractor.FirstAmountOf | Pdf-Reader/Services/Extractors/MoneyExtractor.cs:28-37 | the `foreach` loop, returning at the first match that reads, computes `FirstAmount` |
| MoneyExtractor.Extract | Pdf-Reader/Services/Extractors/MoneyExtractor.cs:20-38 | the method runs that loop over the money-pattern matches of the text, so it computes `FirstAmount` of them |
| MoneyExtractor.AmountFromMoneyToken | Pdf-Reader/Services/Extractors/MoneyExtractor.cs:20-38 | a found amount is the reading of one of the text's matches, and that match has the money-token shape |
| DateExtractor.NormalizeSeparators | Pdf-Reader/Services/Extractors/DateExtractor.cs:200 | '.' and '-' become '/', and nothing else changes |
| DateExtractor.ParseExact | Pdf-Reader/Services/Extractors/DateExtractor.cs:202-208 | whatever the four formats accept is a real calendar day |
| DateExtractor.TryParseDate | Pdf-Reader/Services/Extractors/DateExtractor.cs:195-209 | a parsed date is a valid calendar day |
| DateExtractor.TryParseDateFields | Pdf-Reader/Services/Extractors/DateExtractor.cs:195-209 | a token of one- or two-digit day and month, four-digit year and any separators parses to that day exactly when the calendar has it |
| DateExtractor.TryParseDateShape | Pdf-Reader/Services/Extractors/DateExtractor.cs:195-209 | whatever parses has the shape of a date token |
| DateExtractor.FormatDateRoundTrip | Pdf-Reader/Services/Extractors/DateExtractor.cs:195-209 | a day written as dd/mm/yyyy with any of the three separators parses back to the same day |
| DateExtractor.LeapDayExample | Pdf-Reader/Services/Extractors/DateExtractor.cs:195-209 | "29.02.2024" parses |
| DateExtractor.CommonYearExample | Pdf-Reader/Services/Extractors/DateExtractor.cs:195-209 | "29-02-2023" does not parse |
| DateExtractor.FirstAccepted | Pdf-Reader/Services/Extractors/DateExtractor.cs:28-41 | the first accepted date, with the given confidence; nothing exactly when no date is accepted |
| DateExtractor.Extract | Pdf-Reader/Services/Extractors/DateExtractor.cs:20-42 | the loop returns the first date token that parses to a year in 1990..2050, with confidence 0.9 |
| DateExtractor.LaterDate | Pdf-Reader/Services/Extractors/DateExtractor.cs:128-139 | the loop returns the first date after the start date in a plausible year, with confidence 0.75 |
| DateExtractor.ImplausibleYearSkipped | Pdf-Reader/Services/Extractors/DateExtractor.cs:33 | a date before 1990 is passed over and the next accepted date is taken |
| DateExtractor.ImplausibleTokenExample | Pdf-Reader/Services/Extractors/DateExtractor.cs:30-33 | "07/07/1899" parses but the generic search refuses it |
| DateExtractor.ExtractStartDate | Pdf-Reader/Services/Extractors/DateExtractor.cs:47-84 | the start date is a valid day and its confidence lies in [0, 1] |
| DateExtractor.ExtractEndDate | Pdf-Reader/Services/Extractors/DateExtractor.cs:89-143 | the end date is a valid day and its confidence lies in [0, 1] |
| DateExtractor.ExtractIssueDate | Pdf-Reader/Services/Extractors/DateExtractor.cs:148-193 | the issue date is a valid day and its confidence lies in [0, 1]; its stages are stated by IssueDateStages and IssueDateNoFallback |
| DateExtractor.CoverageRangeGivesBoth | Pdf-Reader/Services/Extractors/DateExtractor.cs:51-61 | one match of the combined coverage range gives both the start and the end date, each with confidence 0.98 |
| DateExtractor.LabelledStartIgnoresWindow | Pdf-Reader/Services/Extractors/DateExtractor.cs:63-69 | a labelled start date is taken whatever its year, inside or outside 1990..2050 |
| DateExtractor.StartDateFallback | Pdf-Reader/Services/Extractors/DateExtractor.cs:82-83 | without a label, the start date is the generic search's and lies in a plausible year |
| DateExtractor.EndDateFallback | Pdf-Reader/Services/Extractors/DateExtractor.cs:124-142 | without a label, an end date is found only after a start date, falls after it, has confidence 0.75, and lies in a plausible year |
| DateExtractor.FallbackEndAfterStart | Pdf-Reader/Services/Extractors/DateExtractor.cs:133 | a fallback end date is later in ticks than the start date |
| DateExtractor.StartDateStages | Pdf-Reader/Services/Extractors/DateExtractor.cs:51-79 | the combined range's first date (0.98), then the start label (0.95), then the table column (0.90); each stage decides only when all earlier ones give no date |
| DateExtractor.EndDateStages | Pdf-Reader/Services/Extractors/DateExtractor.cs:94-121 | the combined range's second date (0.98), then the end label (0.95), then the table column (0.90); each stage decides only when all earlier ones give no date |
| DateExtractor.IssueDateStages | Pdf-Reader/Services/Extractors/DateExtractor.cs:151-189 | the issue-date label (0.95), then "Tanzim Tarihi" (0.90), then "TARİHİNDE ... TANZİM" (0.95), then "Düzenleme Tarihi" (0.95); each stage decides only when all earlier ones give no date |
| DateExtractor.IssueDateNoFallback | Pdf-Reader/Services/Extractors/DateExtractor.cs:148-192 | the issue date has no generic fallback: without any of its four patterns, nothing is found |
| NameExtractor.UnspacedIsOneWord | Pdf-Reader/Services/Extractors/NameExtractor.cs:100 | a string without a space splits into at most one word |
| NameExtractor.ValidNameHasSpace | Pdf-Reader/Services/Extractors/NameExtractor.cs:97-101 | a valid name contains a space |
| NameExtractor.DeniedWordInvalidates | Pdf-Reader/Services/Extractors/NameExtractor.cs:109-115 | any denylisted word, in any case, makes the name invalid |
| NameExtractor.SingleWordExample | Pdf-Reader/Services/Extractors/NameExtractor.cs:99-101 | "AHMET" alone is not a name |
| NameExtractor.DeniedFrom | Pdf-Reader/Services/Extractors/NameExtractor.cs:123-128 | the first alternative of the denylist alternation that matches at a position; none before it matches |
| NameExtractor.RemoveWords | Pdf-Reader/Services/Extractors/NameExtractor.cs:123-128 | deleting the denylist words adds no character and never lengthens the text |
| NameExtractor.CollapseWhite | Pdf-Reader/Services/Extractors/NameExtractor.cs:131 | each run of white space becomes one space; the result is single-spaced and starts and ends like the input |
| NameExtractor.CollapseKeepsVisible | Pdf-Reader/Services/Extractors/NameExtractor.cs:131 | collapsing keeps every non-white character, in order |
| NameExtractor.CollapseSingleSpaced | Pdf-Reader/Services/Extractors/NameExtractor.cs:131 | a single-spaced string is its own collapse |
| NameExtractor.NormalizeName | Pdf-Reader/Services/Extractors/NameExtractor.cs:120-134 | the normal form is no longer than the name, trimmed and single-spaced |
| NameExtractor.NormalizeIdentity | Pdf-Reader/Services/Extractors/NameExtractor.cs:120-134 | a trimmed, single-spaced name with no denylisted word is left as it is |
| NameExtractor.NormalizeKeepsVisible | Pdf-Reader/Services/Extractors/NameExtractor.cs:131 | after the deletion, normalisation changes only white space |
| NameExtractor.ValidCandidate | Pdf-Reader/Services/Extractors/NameExtractor.cs:30-31 | a candidate is kept exactly when its trimmed form passes `IsValidName`, and then it is that trimmed form |
| NameExtractor.FirstKeywordFrom | Pdf-Reader/Services/Extractors/NameExtractor.cs:69-92 | the first keyword that yields a valid name; none before it does |
| NameExtractor.ProximityCandidate | Pdf-Reader/Services/Extractors/NameExtractor.cs:67-92 | a name from the keyword stage is valid |
| NameExtractor.ScanKeywords | Pdf-Reader/Services/Extractors/NameExtractor.cs:69-92 | the keyword loop computes the keyword stage's candidate |
| NameExtractor.Extract | Pdf-Reader/Services/Extractors/NameExtractor.cs:19-95 | the method computes `NameExtraction`: three single matches, then the keyword loop |
| NameExtractor.ExtractedNameValid | Pdf-Reader/Services/Extractors/NameExtractor.cs:19-134 | every name returned is the normal form of a valid candidate, so it is trimmed and single-spaced |
| NameExtractor.StageOrder | Pdf-Reader/Services/Extractors/NameExtractor.cs:19-92 | the stages in order: own line 0.90, title 0.90, pattern 0.85, keywords 0.75; an invalid candidate passes to the next stage |
| NameExtractor.NoValidCandidate | Pdf-Reader/Services/Extractors/NameExtractor.cs:94 | nothing is found, with confidence 0, exactly when no stage has a valid candidate |
| NameExtractor.ProximityKeywordOrder | Pdf-Reader/Services/Extractors/NameExtractor.cs:68-69 | the keyword stage takes the first keyword in list order that gives a valid name |
| NameExtractor.KeywordSpanOnly | Pdf-Reader/Services/Extractors/NameExtractor.cs:71-80 | only a keyword's first occurrence matters; the name is read from the 200 characters starting there |
| PolicyNumberExtractor.PrefixedAt | Pdf-Reader/Services/Extractors/PolicyNumberExtractor.cs:102 | a match of `[A-Z]?-?\d{6,20}(?:-\d+)*` is at least six long and holds only letters, dashes and digits |
| PolicyNumberExtractor.FirstPrefixed | Pdf-Reader/Services/Extractors/PolicyNumberExtractor.cs:102 | the leftmost start where the prefixed pattern matches |
| PolicyNumberExtractor.DigitsMatch | Pdf-Reader/Services/Extractors/PolicyNumberExtractor.cs:110 | a match of `\d{6,20}` has six to twenty digits |
| PolicyNumberExtractor.DigitsArePrefixed | Pdf-Reader/Services/Extractors/PolicyNumberExtractor.cs:102-110 | where six digits start, the prefixed pattern matches too |
| PolicyNumberExtractor.DigitsOnlyUnreachable | Pdf-Reader/Services/Extractors/PolicyNumberExtractor.cs:101-115 | the digits-only branch (0.85) is never taken: whenever it would match, the prefixed branch matched first |
| PolicyNumberExtractor.PrefixedExample | Pdf-Reader/Services/Extractors/PolicyNumberExtractor.cs:101-102 | "T-382492524-0-0" is matched whole |
| PolicyNumberExtractor.KeywordStages | Pdf-Reader/Services/Extractors/PolicyNumberExtractor.cs:93-117 | one stage per keyword, in the keywords' order |
| PolicyNumberExtractor.Extract | Pdf-Reader/Services/Extractors/PolicyNumberExtractor.cs:19-128 | the number and its confidence come from the first stage that finds one; the confidence lies in [0, 1] |
| PolicyNumberExtractor.InsurerLabelsFirst | Pdf-Reader/Services/Extractors/PolicyNumberExtractor.cs:23-77 | the five insurer labels come first, in the source's order, and the first that matches decides |
| PolicyNumberExtractor.LabelStageSpec | Pdf-Reader/Services/Extractors/PolicyNumberExtractor.cs:28-32 | a label stage finds a number exactly when its pattern matches, and returns group 1 with confidence 0.95 |
| PolicyNumberExtractor.LaterStagesInOrder | Pdf-Reader/Services/Extractors/PolicyNumberExtractor.cs:79-125 | after the labels: the generic pattern, then the keywords, then the table |
| PolicyNumberExtractor.NothingFound | Pdf-Reader/Services/Extractors/PolicyNumberExtractor.cs:127 | nothing is found, with confidence 0, exactly when no stage finds a number |
| PolicyNumberExtractor.ProximityKeywordOrder | Pdf-Reader/Services/Extractors/PolicyNumberExtractor.cs:93-94 | the keyword stage takes the first keyword in list order whose window yields a number |
| PolicyNumberExtractor.ProximityNone | Pdf-Reader/Services/Extractors/PolicyNumberExtractor.cs:94-117 | the keyword stage yields nothing exactly when no keyword's window yields a number |
| PolicyNumberExtractor.ProximityConfidenceIsGeneric | Pdf-Reader/Services/Extractors/PolicyNumberExtractor.cs:103-106 | a number near a keyword always carries confidence 0.9 |
| PolicyNumberExtractor.KeywordSpanOnly | Pdf-Reader/Services/Extractors/PolicyNumberExtractor.cs:96-106 | only the 150 characters from a keyword's first occurrence are read, and the prefixed match decides |
| PolicyNumberExtractor.GenericCheckAlwaysHolds | Pdf-Reader/Services/Extractors/PolicyNumberExtractor.cs:79-90 | when group 1 of the generic pattern is a run of 6 to 20 digits, the 6-to-30 length check always passes |
| CompanyDetectorService.CompanyKeywordsShape | Pdf-Reader/Services/CompanyDetectorService.cs:14-51 | the insurer table has the source's 35 entries, none keyed `Unknown`, each with non-empty keywords |
| CompanyDetectorService.Lookup | Pdf-Reader/Services/CompanyDetectorService.cs:163 | `TryGetValue` finds the keywords of an entry with the key, and nothing exactly when no entry has it |
| CompanyDetectorService.FirstMaximal | Pdf-Reader/Services/CompanyDetectorService.cs:167 | the first element with the largest key |
| CompanyDetectorService.Score | Pdf-Reader/Services/CompanyDetectorService.cs:87-101 | the score is the keyword length plus 10 before position 500, plus 5 before 1000, plus 15 for more than three occurrences |
| CompanyDetectorService.HitsSpec | Pdf-Reader/Services/CompanyDetectorService.cs:73-108 | the detections are exactly the keywords of the table that occur in the upper-cased text |
| CompanyDetectorService.FlattenEmpty | Pdf-Reader/Services/CompanyDetectorService.cs:110-114 | there are no detections exactly when no lookup finds anything |
| CompanyDetectorService.BestHit | Pdf-Reader/Services/CompanyDetectorService.cs:117 | the winner is a detection that no other outranks, by higher score then earlier position, and the first such |
| CompanyDetectorService.CalculateConfidence | Pdf-Reader/Services/CompanyDetectorService.cs:142-156 | the score over 20, capped at 0.8, plus 0.1 for several detections and 0.1 for a score above 15, capped at 1 |
| CompanyDetectorService.CompanyName | Pdf-Reader/Services/CompanyDetectorService.cs:161-186 | nothing exactly when no entry has the company; otherwise, from the first entry with it, the first of its longest keywords when the text contains it ignoring case, else the enum name |
| CompanyDetectorService.DottedKeywordExample | Pdf-Reader/Services/CompanyDetectorService.cs:161-186 | for Axa on "AXA SIGORTA" the longest keyword is "AXA SİGORTA", which the text lacks, so the name is the enum name "Axa" |
| CompanyDetectorService.DetectCompany | Pdf-Reader/Services/CompanyDetectorService.cs:61-128 | the nested loops compute `CompanyDetectionOf` |
| CompanyDetectorService.CollectHits | Pdf-Reader/Services/CompanyDetectorService.cs:71-108 | the outer loop collects the hits of every company, company by company in table order |
| CompanyDetectorService.CollectKeywordHits | Pdf-Reader/Services/CompanyDetectorService.cs:78-107 | the inner loop collects one hit for each keyword of one company that occurs in the text, in keyword order |
| CompanyDetectorService.DetectCompanyOutcome | Pdf-Reader/Services/CompanyDetectorService.cs:61-128 | Unknown, with no name and confidence 0, exactly for blank text or text with no keyword; otherwise a company whose keyword occurs, with a name |
| CompanyDetectorService.DetectCompanyConfidence | Pdf-Reader/Services/CompanyDetectorService.cs:120 | the confidence lies in [0, 1] |
| CompanyDetectorService.DetectCompanyWinner | Pdf-Reader/Services/CompanyDetectorService.cs:117-127 | no keyword found in the text outranks the winner |
| CompanyDetectorService.PolicyTypeKeywordsShape | Pdf-Reader/Services/CompanyDetectorService.cs:195-212 | the policy-type table has the source's 15 entries, none keyed `Unknown` |
| CompanyDetectorService.KeywordTypeHit | Pdf-Reader/Services/CompanyDetectorService.cs:223-227 | a keyword is detected exactly when the upper-cased text contains it, scored by its length |
| CompanyDetectorService.CountType | Pdf-Reader/Services/CompanyDetectorService.cs:244 | the number of detections of one line of business |
| CompanyDetectorService.PolicyTypeConfidence | Pdf-Reader/Services/CompanyDetectorService.cs:245 | 0.7 plus 0.1 per detection, capped at 0.95 |
| CompanyDetectorService.DetectPolicyType | Pdf-Reader/Services/CompanyDetectorService.cs:191-250 | the nested loops compute `PolicyTypeDetectionOf` |
| CompanyDetectorService.CollectTypeHits | Pdf-Reader/Services/CompanyDetectorService.cs:214-232 | the outer loop collects the detections of every line of business, in table order |
| CompanyDetectorService.CollectKeywordTypeHits | Pdf-Reader/Services/CompanyDetectorService.cs:221-231 | the inner loop records one detection, scored by keyword length, for each keyword of one line of business that occurs in the text |
| CompanyDetectorService.DetectPolicyTypeOutcome | Pdf-Reader/Services/CompanyDetectorService.cs:191-250 | Unknown with confidence 0 exactly when no keyword occurs; otherwise the type of a longest keyword that occurs, the first in table order among equally long ones, with confidence in [0.8, 0.95] |
| CompanyDetectorService.DetectPolicyTypeConfidence | Pdf-Reader/Services/CompanyDetectorService.cs:241-246 | a detected type's confidence is `PolicyTypeConfidence` of the number of its keywords that occur in the upper-cased text |
| ExtractorOrchestrator.IsCancellationDocument | Pdf-Reader/Services/ExtractorOrchestrator.cs:313-347 | the loop reports true exactly when the text is not blank and its upper-cased form contains a cancellation keyword |
| ExtractorOrchestrator.ContainsAnyKeyword | Pdf-Reader/Services/ExtractorOrchestrator.cs:337-346 | the loop returns true exactly when one of the keywords occurs in the text, and false after the last one |
| ExtractorOrchestrator.ExtractVehicleInfo | Pdf-Reader/Services/ExtractorOrchestrator.cs:227-250 | brand and model come together from the first match's two groups, trimmed, with confidence 0.8, and only when the brand is 2 to 30 characters and not blank |
| ExtractorOrchestrator.VehicleBrandLength | Pdf-Reader/Services/ExtractorOrchestrator.cs:238 | a brand outside 2 to 30 characters is dropped, with the model |
| ExtractorOrchestrator.CriticalFieldsFor | Pdf-Reader/Services/ExtractorOrchestrator.cs:261-270 | five critical fields, with the plate as a sixth exactly for Trafik and Kasko |
| ExtractorOrchestrator.OverallScoreInUnit | Pdf-Reader/Services/ExtractorOrchestrator.cs:294-305 | with every confidence in [0, 1], the overall score lies in [0, 1] |
| ExtractorOrchestrator.CombineInUnit | Pdf-Reader/Services/ExtractorOrchestrator.cs:294-305 | the weighted average with the missing-field penalty lies in [0, 1] |
| ExtractorOrchestrator.RoundHalfEven | Pdf-Reader/Services/ExtractorOrchestrator.cs:307 | the rounded integer is within one half of the value |
| ExtractorOrchestrator.Round2 | Pdf-Reader/Services/ExtractorOrchestrator.cs:307 | rounding to two places moves the value by at most 0.005 and keeps [0, 1] |
| ExtractorOrchestrator.CalculateOverallConfidence | Pdf-Reader/Services/ExtractorOrchestrator.cs:255-308 | the two loops over the critical and the important fields compute the rounded overall score |
| ExtractorOrchestrator.SumPresent | Pdf-Reader/Services/ExtractorOrchestrator.cs:272-292 | each of the two loops sums the recorded confidences of its fields and counts how many are recorded |
| ExtractorOrchestrator.CombineScores | Pdf-Reader/Services/ExtractorOrchestrator.cs:295-305 | the weighted means, 70% critical and 30% important, reduced by half the share of missing critical fields |
| ExtractorOrchestrator.RunScored | Pdf-Reader/Services/ExtractorOrchestrator.cs:62-206 | every confidence the detectors and extractors report lies in [0, 1] |
| ExtractorOrchestrator.RunExtractors | Pdf-Reader/Services/ExtractorOrchestrator.cs:62-206 | the method calls the detectors and extractors in the source's order, the vehicle ones only for vehicle policies |
| ExtractorOrchestrator.RecordConfidences | Pdf-Reader/Services/ExtractorOrchestrator.cs:48-206 | the dictionary writes, key by key, give `FieldConfidences` |
| ExtractorOrchestrator.ExtractPolicyData | Pdf-Reader/Services/ExtractorOrchestrator.cs:43-214 | a new record holding the extracted fields as given, the company name defaulting to the enum name, and the overall confidence |
| ExtractorOrchestrator.ExtractBatch | Pdf-Reader/Services/ExtractorOrchestrator.cs:352-376 | one new record per text, in order, under its key, each extracted from its own text |
| ExtractorOrchestrator.FieldConfidenceKeys | Pdf-Reader/Services/ExtractorOrchestrator.cs:48-206 | Company and PolicyType always have an entry; every other field has one exactly when a value was found, and plate and vehicle entries only for a vehicle policy |
| ExtractorOrchestrator.FieldConfidencesInUnit | Pdf-Reader/Services/ExtractorOrchestrator.cs:65-205 | every confidence in the dictionary lies in [0, 1] |
| ExtractorOrchestrator.ExtractedConfidence | Pdf-Reader/Services/ExtractorOrchestrator.cs:210 | the dictionary is never empty, Company always counts as a present critical field, and the overall confidence lies in [0, 1] |
| ExtractorOrchestrator.ExtractedRecordConfidence | Pdf-Reader/Services/ExtractorOrchestrator.cs:43-214 | every record extracted has its confidence score in [0, 1] |
| FieldExtractor.FirstFound | Pdf-Reader/Services/Extractors/IFieldExtractor.cs:15 | a chain that finds nothing reports confidence 0; with well-scored stages the result is well scored |
| FieldExtractor.FirstFoundSpec | Pdf-Reader/Services/Extractors/IFieldExtractor.cs:15 | the chain's result is its first stage that finds a value; it finds nothing exactly when no stage does |
| FieldExtractor.FirstFoundConcat | Pdf-Reader/Services/Extractors/IFieldExtractor.cs:15 | a chain in two parts consults the second only when the first finds nothing |
| FieldExtractor.ChainHit | Pdf-Reader/Services/Extractors/IFieldExtractor.cs:15 | the first stage with a value decides the value and the confidence |
| FieldExtractor.ChainMiss | Pdf-Reader/Services/Extractors/IFieldExtractor.cs:15 | when no stage finds a value, nothing is found, with confidence 0 |
| Models.CompanyTypeName | Pdf-Reader/Models/CompanyType.cs:6-44 | `ToString()` gives a non-empty name |
| Models.PolicyTypeName | Pdf-Reader/Models/PolicyType.cs:6-30 | `ToString()` gives a non-empty name |
| Models.PolicyData.constructor | Pdf-Reader/Models/PolicyData.cs:6-50 | a new record has every nullable field empty, the enums Unknown and the lists empty |
| Models.PolicyData.Extracted | Pdf-Reader/Services/ExtractorOrchestrator.cs:47-210 | the record after the extraction's property writes: the given fields set, the rest as new |
| Calendar.DaysInMonth | Pdf-Reader/Services/Extractors/DateExtractor.cs:203 | months have 28 to 31 days, and February has 29 exactly in a leap year |
| Calendar.AddYears | Pdf-Reader/Services/ValidationService.cs:130-136 | `AddYears` keeps month and day, 29 February becoming 28 February in a common year; nothing outside years 1..9999 |
| Calendar.DaysBeforeMonth | Pdf-Reader/Services/ValidationService.cs:146-155 | the days of the year before the first of a month, from the common-year or leap-year month table |
| Calendar.DayNumberOrder | Pdf-Reader/Services/ValidationService.cs:146-155 | day numbers follow calendar order, so comparing dates compares day numbers |
| Calendar.MidnightAfterInstant | Pdf-Reader/Services/ValidationService.cs:130-187 | a midnight is after an instant exactly when its day is later; it is before exactly when its day is earlier, or the same day with a later time |
| Text.ToUpper | Pdf-Reader/Services/CompanyDetectorService.cs:133-137 | `ToUpperInvariant` maps each character on its own and keeps the length; digits, white space and word characters stay what they are |
| Text.IndexOfFrom | Pdf-Reader/Helpers/RegexPatterns.cs:225 | the first occurrence from `i` on; none before it |
| Text.LastIndexOf | Pdf-Reader/Services/Extractors/MoneyExtractor.cs:430 | the last position holding the character, or -1 exactly when it is absent |
| Text.RemoveChar | Pdf-Reader/Services/Extractors/PlateNumberExtractor.cs:30 | every occurrence of the character goes; every other character stays |
| Text.ReplaceChar | Pdf-Reader/Services/Extractors/DateExtractor.cs:200 | each occurrence of one character becomes the other; the length is kept |
| Text.Trim | Pdf-Reader/Services/Extractors/MoneyExtractor.cs:420 | the result neither starts nor ends with white space, and is no longer |
| Text.TrimBlank | Pdf-Reader/Services/ValidationService.cs:79-97 | a string is blank exactly when trimming leaves nothing |
| Text.SplitRemoveEmpty | Pdf-Reader/Services/Extractors/NameExtractor.cs:100 | every part is non-empty and free of the separator |
| Text.SplitJoin | Pdf-Reader/Services/Extractors/NameExtractor.cs:100 | the parts joined by single separators give the string with every separator run collapsed to one and the ends stripped of separators |
| Text.CountOccurrences | Pdf-Reader/Services/CompanyDetectorService.cs:99 | the count is 0 exactly when the keyword does not occur; CountScanned states the count itself |
| Text.CountScanned | Pdf-Reader/Services/CompanyDetectorService.cs:99 | `Split(k).Length - 1` equals the number of occurrences a left-to-right scan finds when it resumes after each match: each is the first occurrence at or after the previous one's end, and none follows the last |
| Text.OverlapCountedOnce | Pdf-Reader/Services/CompanyDetectorService.cs:99 | overlapping occurrences count once: "AA" is counted once in "AAA" |
| DecimalParse.ParseDecimal | Pdf-Reader/Services/Extractors/MoneyExtractor.cs:443 | `decimal.Parse` gives a value within the decimal range, or fails |
| DecimalParse.ParseDecimalNoMinus | Pdf-Reader/Services/Extractors/MoneyExtractor.cs:443 | text without '-' never parses to a negative value |
| DecimalParse.ParseFixedPoint | Pdf-Reader/Services/Extractors/MoneyExtractor.cs:443 | digits, a point and digits parse to their value |
| DecimalParse.ParseInteger | Pdf-Reader/Services/Extractors/MoneyExtractor.cs:443 | a string of digits parses to its value |
| DecimalParse.ParseNeedsDigit | Pdf-Reader/Services/Extractors/MoneyExtractor.cs:443 | a string without a digit never parses |
| ValidationService.ValidationResult.constructor | Pdf-Reader/Services/ValidationService.cs:419-427 | a new result is valid, with no errors and no warnings |
| ValidationService.YearsFromNow | Pdf-Reader/Services/ValidationService.cs:130-136 | `now.AddYears(n)` keeps the time of day and moves the year by `n` |
| ValidationService.ValidateMandatoryFields | Pdf-Reader/Services/ValidationService.cs:77-117 | appends the mandatory-field errors and the zero-premium warning, and nothing else changes |
| ValidationService.WrittenDuration | Pdf-Reader/Services/ValidationService.cs:152-168 | a duration is written exactly when both dates are present and it is 1 to 1825 days, and then it is end minus start |
| ValidationService.ValidateStartDate | Pdf-Reader/Services/ValidationService.cs:127-140 | appends the start-date warnings; the errors stay |
| ValidationService.ValidateEndDate | Pdf-Reader/Services/ValidationService.cs:143-169 | appends the end-date errors and warnings and writes `DurationDays` as `WrittenDuration` says |
| ValidationService.ValidateIssueDate | Pdf-Reader/Services/ValidationService.cs:172-191 | reports whether `StartDate.AddDays(30)` throws; when it does not, appends the issue-date warnings |
| ValidationService.ValidateDates | Pdf-Reader/Services/ValidationService.cs:122-192 | the three date blocks in order, with the exception reported |
| ValidationService.PremiumLevelWarnings | Pdf-Reader/Services/ValidationService.cs:203-236 | one premium gets at most one range warning, appended |
| ValidationService.ValidatePremiumLevel | Pdf-Reader/Services/ValidationService.cs:203-236 | appends that premium's range warning |
| ValidationService.ComparePremiums | Pdf-Reader/Services/ValidationService.cs:241-257 | appends the gross-below-net and the gap warnings |
| ValidationService.ValidateMoneyValues | Pdf-Reader/Services/ValidationService.cs:197-269 | appends the money warnings; the errors stay |
| ValidationService.TcNoErrors | Pdf-Reader/Services/ValidationService.cs:274-292 | at most one identity-number error, appended; none exactly when the number is blank or eleven digits without a leading zero |
| ValidationService.ValidateTcNo | Pdf-Reader/Services/ValidationService.cs:274-292 | appends that error; the warnings stay |
| ValidationService.ExtractedTcNoPasses | Pdf-Reader/Services/ValidationService.cs:274-292 | a number the identity-number extractor accepts raises no error |
| ValidationService.ProvinceCode | Pdf-Reader/Services/ValidationService.cs:317 | `int.Parse` of two digits lies in 0..99 |
| ValidationService.ValidatePlateNumber | Pdf-Reader/Services/ValidationService.cs:297-325 | appends the plate warnings; the errors stay |
| ValidationService.ValidateName | Pdf-Reader/Services/ValidationService.cs:330-351 | appends the name warnings; the errors stay |
| ValidationService.PolicyNumberWarnings | Pdf-Reader/Services/ValidationService.cs:356-370 | at most one policy-number warning, appended |
| ValidationService.ValidatePolicyNumber | Pdf-Reader/Services/ValidationService.cs:356-370 | appends that warning; the errors stay |
| ValidationService.ConfidenceWarnings | Pdf-Reader/Services/ValidationService.cs:399-413 | at most one confidence warning, appended; none exactly when the score is at least 0.7 |
| ValidationService.ValidateConfidence | Pdf-Reader/Services/ValidationService.cs:399-413 | appends that warning; the errors stay |
| ValidationService.ValidateLaterGroups | Pdf-Reader/Services/ValidationService.cs:36-50 | the money, identity-number, plate, name, policy-number and confidence groups in order |
| ValidationService.Validate | Pdf-Reader/Services/ValidationService.cs:20-72 | a new result whose errors and warnings are the rule groups' in order; valid exactly when there is no error; the exception path appends its error; only `DurationDays` of the record changes |
| ValidationService.ValidateUpToIssue | Pdf-Reader/Services/ValidationService.cs:26-30 | the mandatory-field and date groups run in order, report whether `AddDays(30)` throws, and leave the record unchanged except `DurationDays` |
| ValidationService.ValidateAfterIssue | Pdf-Reader/Services/ValidationService.cs:32-69 | after an exception only the catch's error is added; otherwise the identity-number error and the later warning groups, and the record is valid exactly when there is no error |
| ValidationRules.MidnightsOrder | Pdf-Reader/Services/ValidationService.cs:146 | two midnights compare as their days do |
| ValidationRules.LongAfterByDay | Pdf-Reader/Services/ValidationService.cs:175 | issued more than thirty days of ticks after the start means more than thirty days later |
| ValidationRules.InFutureByDay | Pdf-Reader/Services/ValidationService.cs:181 | a midnight is more than a day after `now` exactly when it is two or more days later |
| ValidationRules.GapAboveHalf | Pdf-Reader/Services/ValidationService.cs:248-257 | a gap above fifty percent of a positive net premium means a gross premium above one and a half times it |
| ValidationRules.MandatoryErrorsRaised | Pdf-Reader/Services/ValidationService.cs:77-117 | the mandatory group reports exactly the mandatory errors whose conditions hold |
| ValidationRules.EndErrorsRaised | Pdf-Reader/Services/ValidationService.cs:143-169 | the end-date group reports exactly the end-before-start and invalid-duration errors whose conditions hold |
| ValidationRules.TcNoErrorsRaised | Pdf-Reader/Services/ValidationService.cs:274-292 | the identity-number group reports exactly the identity errors whose conditions hold |
| ValidationRules.ErrorsAreRaised | Pdf-Reader/Services/ValidationService.cs:20-72 | an error is in `Validate`'s result exactly when its condition on the record holds |
| ValidationRules.StartWarningsGiven | Pdf-Reader/Services/ValidationService.cs:127-140 | the start-date group warns exactly when the start lies after two years from now or before ten years ago |
| ValidationRules.IssueWarningsGiven | Pdf-Reader/Services/ValidationService.cs:172-191 | the issue-date group warns exactly for an issue date thirty days after the start, in the future, or before ten years ago |
| ValidationRules.ComparisonWarningsGiven | Pdf-Reader/Services/ValidationService.cs:241-257 | the comparison warns exactly for a gross premium below the net, or a gap above fifty percent |
| ValidationRules.MoneyWarningsGiven | Pdf-Reader/Services/ValidationService.cs:197-269 | the money group reports exactly the money warnings whose conditions hold |
| ValidationRules.PlateWarningsGiven | Pdf-Reader/Services/ValidationService.cs:297-325 | the plate group reports exactly the plate warnings whose conditions hold |
| ValidationRules.NameWarningsGiven | Pdf-Reader/Services/ValidationService.cs:330-351 | the name group reports exactly the name warnings whose conditions hold |
| ValidationRules.PolicyNumberWarningsGiven | Pdf-Reader/Services/ValidationService.cs:356-370 | the policy-number group warns exactly for a non-blank number of fewer than 6 or more than 20 characters |
| ValidationRules.ConfidenceWarningsGiven | Pdf-Reader/Services/ValidationService.cs:399-413 | the confidence group warns very low below 0.5 and low from 0.5 to below 0.7 |
| ValidationRules.WarningsAreGiven | Pdf-Reader/Services/ValidationService.cs:20-72 | a warning is in `Validate`'s result exactly when its condition on the record and the clock holds |
| ValidationRules.NoErrorsIffAcceptable | Pdf-Reader/Services/ValidationService.cs:53 | a record is valid exactly when it is acceptable: company known, policy number, both dates with the end after the start, a premium, a plate where required, no exception, and a blank or well-formed identity number; warnings never matter |
| ValidationRules.DurationOutcomes | Pdf-Reader/Services/ValidationService.cs:152-168 | with both dates present, exactly one holds: the duration is written, it is reported as too long, or it is reported as invalid |
| ValidationRules.EndBeforeStartAlsoInvalid | Pdf-Reader/Services/ValidationService.cs:146-160 | an end date before the start date is reported twice, also as a duration below one day |
| ValidationRules.PremiumVerdictsExclusive | Pdf-Reader/Services/ValidationService.cs:100-109 | no premium is an error and two zero premiums only a warning; never both |
| ValidationRules.PlateOnlyForMotor | Pdf-Reader/Services/ValidationService.cs:112-116 | a missing plate is an error only for Trafik and Kasko, never for Ferdi Kaza |

## Left out

- Issuer-specific regular expressions are an abstract engine, not compiled
  patterns. Properties that hang on their exact text are not proved.
- Character semantics: digits are the ASCII digits. Other Unicode categories,
  culture rules and UTF-16 lengths are not modelled; a string's length is its
  character count.
- Text.ToUpper: maps the ASCII letters and the Turkish letters ç, ğ, ö, ş, ü
  and õ, and keeps the dotless 'ı' as `ToUpperInvariant` keeps it. Other
  non-ASCII lower-case letters (such as 'â' or 'é') are kept unchanged,
  where .NET would upper-case them, because the keyword tables never hold them.
- Doubles are modelled as reals and `decimal` as exact reals without a scale.
  The rounding of `diffPercent`'s division and of
  `DetectPolicyType`'s `0.7 + 0.1 * n` in doubles is not modelled.
- `DateTime.Now` is the parameter `now`. `Validate` requires a clock in years
  11 to 9997, so that `AddYears(2)` and `AddYears(-10)` cannot throw.
- `PolicyData.ExtractedAt`, logging, `async` and cancellation are left out.
  The orchestrator's local `warnings` list never leaves the method, so it is
  not modelled.
- The orchestrator's and the batch loop's `catch` branches are left out:
  the modelled extractors do not throw. The `Validate` catch is modelled for
  the one exception its rules can raise, `StartDate.AddDays(30)` near
  year 9999.
- `ValidateCompanySpecific` is empty in the source and is not modelled.
- `RegexPatterns.CompanyKeywords` is unused by the source and is not
  modelled.
- Validator messages are datatypes carrying the values they interpolate,
  not formatted strings. The catch's exception message text is not kept.
- The source's net and gross premium range checks are one helper,
  `ValidatePremiumLevel`, applied twice. `ValidateDates` is split into its
  three commented blocks.
- FormatPlate: requires the plate not to be "0", where the source throws
  on `plate[1]`. Every plate the extractor formats has six or more
  characters.
- FormattedValidPlate: states only the length and first digit of a formatted
  valid plate without its spaces, weaker than the full round trip of
  `FormatPlateRoundTrip`.
- The detectors' keyword tables and the extractors' dictionaries are
  parameters, held to the shape of the source's literals.
- PolicyController, Program, the batch job service, the PDF text extractor
  and the middleware are not part of this model.
