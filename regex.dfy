/** The regular-expression engine, seen from the extractors.

    The issuer-specific patterns (the long alternations with Turkish labels,
    look-aheads and lazy gaps) are not re-implemented: each is a name in
    `Pattern`, and an `Engine` says which matches a pattern has in a string,
    left to right. Everything the extractors do with those matches (which
    match they take, which group, how it is cleaned, checked and scored, and
    in which order the stages run) is modelled exactly. */
module Regex {
  import opened Wrappers

  datatype Pattern =
    // DateExtractor
    | HdiCoverageRange        // "Sigorta Başlangıç/Bitiş Tarihi <date> - <date>"
    | StartDateLabel          // RegexPatterns.StartDatePattern
    | StartDateTable          // "BAŞLANGIÇ TARİHİ: <date>"
    | EndDateLabel            // RegexPatterns.EndDatePattern
    | EndDateTable            // "BİTİŞ TARİHİ: <date>"
    | IssueDateLabel          // RegexPatterns.IssueDatePattern
    | TanzimDate              // "Tanzim Tarihi <date>"
    | AllianzTanzim           // "<date> ... TARİHİNDE ... TANZİM"
    | AnadoluDuzenleme        // "Düzenleme Tarihi" within 100 characters of a date
    // MoneyExtractor, net premium
    | NeovaNetKatki           // "(TOPLAM) NET KATKI PRİMİ <amount>"
    | AxaNetPrim              // "Net Prim <amount>"
    | VergiOncesiTable        // "Vergi Öncesi" table row
    | VergiOncesi             // "Vergi Öncesi <amount>"
    | NetPremiumLabel         // RegexPatterns.NetPremiumPattern
    | NetColon                // "Net: <amount>"
    // MoneyExtractor, gross premium
    | QuickHayatTable
    | QuickHayatReverse
    | QuickHayatPrimTutari
    | ToplamPrim
    | NeovaBrutKatki
    | ZeyilPesin              // three amounts after "Peşin" in an endorsement table
    | PolicePrimi
    | AxaOdenecekPrim         // case-sensitive "Ödenecek Prim <amount>"
    | OdenecekPrimAmount      // "Ödenecek Prim <d.ddd,dd>"
    | OdenecekPrimNextLine    // "Ödenecek Prim" then the amount on a later line
    | OdenecekTutar
    | GrossPremiumLabel       // RegexPatterns.GrossPremiumPattern
    | OdenecekColon           // "Ödenecek: <amount>"
    | AllianzOdenecekRegion   // "Ödenecek Prim" and up to 150 characters after it
    | TlAmount                // "<amount> TL"
    | AxaSpecificOdenecek
    // MoneyExtractor, tax
    | TaxLabel                // RegexPatterns.TaxPattern
    // PolicyNumberExtractor
    | SertifikaNumarasi
    | PoliceninSuretidir
    | KarayollariPolicy
    | DogaPoliceNo
    | NeovaYenilemeNo
    | PolicyNumberLabel       // RegexPatterns.PolicyNumberPattern
    | PolicyNumberTable       // a number followed by a code and a date, by look-ahead
    // PlateNumberExtractor
    | DogaPlaka               // "Plaka : <plate>"
    // NameExtractor
    | DogaSigortali           // "Sigortalı" on its own line, the name on the next
    | AdiSoyadiUnvani         // "Adı Soyadı / Ünvanı : <name>"
    | NameLabel               // RegexPatterns.NamePattern
    | NameAfterLabel          // ": <Name Surname>" in the 200-character span read from a keyword
    // ExtractorOrchestrator
    | VehicleInfo             // RegexPatterns.VehicleInfoPattern

  /** One match: its whole value (group 0) and its numbered groups, `groups[0]` being group 1. */
  datatype Match = Match(value: string, groups: seq<string>)

  /** All matches of a pattern in a string, in the order `Regex.Matches` yields them. */
  type Engine = (Pattern, string) -> seq<Match>

  /** `m.Groups[k].Value`: an absent group reads as the empty string. */
  function Group(m: Match, k: nat): string {
    if k == 0 then m.value else if k <= |m.groups| then m.groups[k - 1] else ""
  }

  /** `Regex.Match(s, p)`: the first match, if any. */
  function First(e: Engine, p: Pattern, s: string): (r: Option<Match>)
    ensures r.Some? <==> |e(p, s)| > 0
    ensures r.Some? ==> r.value == e(p, s)[0]
  {
    var ms := e(p, s);
    if |ms| == 0 then None else Some(ms[0])
  }

  /** `Regex.Matches(s, p).Last()`, if there are matches. */
  function Last(e: Engine, p: Pattern, s: string): (r: Option<Match>)
    ensures r.Some? <==> |e(p, s)| > 0
    ensures r.Some? ==> r.value == e(p, s)[|e(p, s)| - 1]
  {
    var ms := e(p, s);
    if |ms| == 0 then None else Some(ms[|ms| - 1])
  }

  /** Group 1 of the first match. */
  function FirstGroup(e: Engine, p: Pattern, s: string): Option<string> {
    match First(e, p, s)
    case None => None
    case Some(m) => Some(Group(m, 1))
  }

  /** The pattern does not match the string. */
  predicate NoMatch(e: Engine, p: Pattern, s: string) { e(p, s) == [] }
}
