/** Detection of the issuing company and of the line of business by keyword scoring. */
module CompanyDetectorService {
  import opened Wrappers
  import opened Text
  import opened Models

  /** A keyword dictionary, in its enumeration (insertion) order: each key with its keywords. */
  type KeywordTable<K> = seq<(K, seq<string>)>

  /** Every key has at least one keyword and no keyword is empty. */
  predicate KeywordsPresent<K>(table: KeywordTable<K>) {
    forall i :: 0 <= i < |table| ==>
      |table[i].1| > 0 && forall j :: 0 <= j < |table[i].1| ==> |table[i].1[j]| > 0
  }

  /** The shape of the company dictionary the detector relies on: `Unknown` is never a key. */
  predicate CompanyTable(table: KeywordTable<CompanyType>) {
    KeywordsPresent(table) && forall i :: 0 <= i < |table| ==> table[i].0 != Unknown
  }

  /** `_companyKeywords`, in declaration order (written in five parts of seven entries). */
  const CompanyKeywords: KeywordTable<CompanyType> :=
    CompanyKeywords1 + CompanyKeywords2 + CompanyKeywords3 + CompanyKeywords4 + CompanyKeywords5

  const CompanyKeywords1: KeywordTable<CompanyType> := [
    (Acibadem, ["ACİBADEM", "ACIBADEM", "ACİBADEM SİGORTA"]),
    (AcnTurk, ["ACN TÜRK", "ACN TURK", "ACNTURK"]),
    (Ak, ["AKSİGORTA", "AKSIGORTA", "AK SİGORTA", "AK ANONİM", "Aksigorta A.Ş", "Aksigorta Anonim"]),
    (Allianz, ["ALLIANZ", "ALLİANZ", "ALLIANZ SİGORTA"]),
    (Ana, ["ANA SİGORTA", "ANA SIGORTA", "ANADOLU ANONİM"]),
    (Anadolu, ["ANADOLU ANONIM TÜRK SIGORTA ŞIRKETI", "ANADOLU ANONIM TURK SIGORTA SIRKETI",
               "ANADOLU ANONİM TÜRK SİGORTA ŞİRKETİ", "ANADOLU ANONİM TÜRK SİGORTA", "ANADOLU SİGORTA",
               "ANADOLU SIGORTA", "ANADOLU ANONİM"]),
    (Ankara, ["ANKARA SİGORTA", "ANKARA SIGORTA", "ANKARA ANONİM"])
  ]

  const CompanyKeywords2: KeywordTable<CompanyType> := [
    (Arex, ["AREX", "AREX SİGORTA", "AREX SIGORTA"]),
    (Atlas, ["ATLAS", "ATLAS SİGORTA", "ATLAS SIGORTA"]),
    (Axa, ["AXA", "AXA SİGORTA", "AXA SIGORTA"]),
    (Bereket, ["BEREKET", "BEREKET SİGORTA", "BEREKET SIGORTA"]),
    (Corpus, ["CORPUS", "CORPUS SİGORTA", "CORPUS SIGORTA"]),
    (Doga, ["DOĞA SİGORTA", "DOGA SIGORTA", "DOĞA", "DOGA"]),
    (Emaa, ["EMAA", "EMAA SİGORTA", "EMAA SIGORTA"])
  ]

  const CompanyKeywords3: KeywordTable<CompanyType> := [
    (Ethica, ["ETHICA", "ETHICA SİGORTA", "ETHİCA"]),
    (Eureko, ["EUREKO", "EUREKO SİGORTA", "EUREKO SIGORTA"]),
    (Gulf, ["GULF", "GULF SİGORTA", "GULF SIGORTA"]),
    (HDI, ["HDI", "HDI SİGORTA", "HDI SIGORTA"]),
    (Hepiyi, ["HEPİYİ", "HEPIYI", "HEPİYİ SİGORTA"]),
    (Koru, ["KORU", "KORU SİGORTA", "KORU SIGORTA"]),
    (Magdeburger, ["MAGDEBURGER", "MAGDEBURGER SİGORTA"])
  ]

  const CompanyKeywords4: KeywordTable<CompanyType> := [
    (Mapfre, ["MAPFRE", "MAPFRE SİGORTA", "MAPFRE GENEL SİGORTA"]),
    (Neova, ["NEOVA KATILIM SİGORTA", "NEOVA SİGORTA", "NEOVA SIGORTA", "NEOVA", "KATILIM SİGORTA POLİÇESİ"]),
    (Orient, ["ORIENT", "ORIENT SİGORTA", "ORIENT SIGORTA"]),
    (Prive, ["PRIVE", "PRİVE", "PRIVE SİGORTA"]),
    (Quick, ["QUICK", "QUICK SİGORTA", "QUİCK"]),
    (Ray, ["RAY SİGORTA", "RAY SIGORTA", "RAY ANONİM", "RAYSIGORTA"]),
    (Referans, ["REFERANS SİGORTA", "REFERANS SIGORTA"])
  ]

  const CompanyKeywords5: KeywordTable<CompanyType> := [
    (Seker, ["ŞEKER", "SEKER", "ŞEKER SİGORTA"]),
    (Sompo, ["SOMPO", "SOMPO SİGORTA", "SOMPO JAPAN"]),
    (TurkiyeKatilim, ["TÜRKİYE KATILIM", "TURKIYE KATILIM", "KATILIM SİGORTA"]),
    (TurkiyePusula, ["TÜRKİYE PUSULA", "TURKIYE PUSULA", "PUSULA SİGORTA", "TÜRKİYE SİGORTA A.Ş",
                     "TÜRKİYE SİGORTA AŞ", "TURKIYE SIGORTA A.S", "TURKIYE SIGORTA", "TÜRKİYE SİGORTA"]),
    (TurkNippon, ["TÜRK NİPPON SİGORTA", "TURK NIPPON SIGORTA", "TURKNIPPON"]),
    (Unico, ["UNICO SİGORTA A", "UNİCO SİGORTA A", "UNICO SIGORTA", "UNICO", "UNİCO"]),
    (Zurich, ["ZURICH", "ZURİCH", "ZURICH SİGORTA"])
  ]

  lemma CompanyTableConcat(a: KeywordTable<CompanyType>, b: KeywordTable<CompanyType>)
    requires CompanyTable(a) && CompanyTable(b)
    ensures CompanyTable(a + b)
  {
    assert forall i :: 0 <= i < |a + b| ==> (a + b)[i] == if i < |a| then a[i] else b[i - |a|];
  }

  lemma CompanyKeywords1Shape()
    ensures CompanyTable(CompanyKeywords1) && |CompanyKeywords1| == 7
  {
  }

  lemma CompanyKeywords2Shape()
    ensures CompanyTable(CompanyKeywords2) && |CompanyKeywords2| == 7
  {
  }

  lemma CompanyKeywords3Shape()
    ensures CompanyTable(CompanyKeywords3) && |CompanyKeywords3| == 7
  {
  }

  lemma CompanyKeywords4Shape()
    ensures CompanyTable(CompanyKeywords4) && |CompanyKeywords4| == 7
  {
  }

  lemma CompanyKeywords5Shape()
    ensures CompanyTable(CompanyKeywords5) && |CompanyKeywords5| == 7
  {
  }

  /** The dictionary literal has the shape the detector relies on. */
  lemma CompanyKeywordsShape()
    ensures CompanyTable(CompanyKeywords)
    ensures |CompanyKeywords| == 35
  {
    CompanyKeywords1Shape();
    CompanyKeywords2Shape();
    CompanyKeywords3Shape();
    CompanyKeywords4Shape();
    CompanyKeywords5Shape();
    CompanyTableConcat(CompanyKeywords1, CompanyKeywords2);
    CompanyTableConcat(CompanyKeywords1 + CompanyKeywords2, CompanyKeywords3);
    CompanyTableConcat(CompanyKeywords1 + CompanyKeywords2 + CompanyKeywords3, CompanyKeywords4);
    CompanyTableConcat(CompanyKeywords1 + CompanyKeywords2 + CompanyKeywords3 + CompanyKeywords4, CompanyKeywords5);
  }

  /** `TryGetValue`: the keywords of the first entry with key `k`. */
  function Lookup<K(==)>(table: KeywordTable<K>, k: K): (r: Option<seq<string>>)
    ensures r.None? <==> forall i :: 0 <= i < |table| ==> table[i].0 != k
    ensures r.Some? ==> exists i :: 0 <= i < |table| && table[i] == (k, r.value) &&
                          forall i' :: 0 <= i' < i ==> table[i'].0 != k
  {
    if table == [] then None
    else if table[0].0 == k then Some(table[0].1)
    else
      var r := Lookup(table[1..], k);
      assert forall i :: 1 <= i < |table| ==> table[i] == table[1..][i - 1];
      if r.Some? then
        var i :| 0 <= i < |table[1..]| && table[1..][i] == (k, r.value) &&
                 forall i' :: 0 <= i' < i ==> table[1..][i'].0 != k;
        assert table[i + 1] == (k, r.value);
        r
      else r
  }

  /** `OrderByDescending(key).First()`: the first element whose key is the largest (the sort
      is stable). */
  function FirstMaximal<T(==)>(xs: seq<T>, key: T -> int): (m: T)
    requires |xs| > 0
    ensures m in xs
    ensures forall x :: x in xs ==> key(x) <= key(m)
    ensures exists k :: 0 <= k < |xs| && xs[k] == m && forall j :: 0 <= j < k ==> key(xs[j]) < key(m)
  {
    if |xs| == 1 then xs[0]
    else
      var r := FirstMaximal(xs[1..], key);
      assert forall x :: x in xs ==> x == xs[0] || x in xs[1..];
      if key(r) > key(xs[0]) then
        var k :| 0 <= k < |xs[1..]| && xs[1..][k] == r && forall j :: 0 <= j < k ==> key(xs[1..][j]) < key(r);
        assert xs[k + 1] == r;
        r
      else xs[0]
  }

  /** The values present in a sequence of options, in order. */
  function Somes<T>(os: seq<Option<T>>): seq<T> {
    if os == [] then []
    else Somes(os[..|os| - 1]) + (if os[|os| - 1].Some? then [os[|os| - 1].value] else [])
  }

  lemma {:induction false} SomesSound<T>(os: seq<Option<T>>)
    ensures forall x :: x in Somes(os) ==> exists j :: 0 <= j < |os| && os[j] == Some(x)
  {
    if os != [] {
      var n := |os| - 1;
      SomesSound(os[..n]);
      assert forall j :: 0 <= j < n ==> os[..n][j] == os[j];
    }
  }

  lemma {:induction false} SomesComplete<T>(os: seq<Option<T>>, j: nat)
    requires j < |os| && os[j].Some?
    ensures os[j].value in Somes(os)
  {
    var n := |os| - 1;
    if j < n {
      assert os[..n][j] == os[j];
      SomesComplete(os[..n], j);
    }
  }

  /** The detections of a nested loop over a dictionary, row by row: the values present,
      in order. */
  function Flatten<T>(rows: seq<seq<Option<T>>>): seq<T> {
    if rows == [] then [] else Flatten(rows[..|rows| - 1]) + Somes(rows[|rows| - 1])
  }

  lemma {:induction false} FlattenSound<T>(rows: seq<seq<Option<T>>>)
    ensures forall x :: x in Flatten(rows) ==>
      exists i, j :: 0 <= i < |rows| && 0 <= j < |rows[i]| && rows[i][j] == Some(x)
  {
    if rows != [] {
      var n := |rows| - 1;
      FlattenSound(rows[..n]);
      SomesSound(rows[n]);
      assert forall i :: 0 <= i < n ==> rows[..n][i] == rows[i];
    }
  }

  lemma {:induction false} FlattenComplete<T>(rows: seq<seq<Option<T>>>, i: nat, j: nat)
    requires i < |rows| && j < |rows[i]| && rows[i][j].Some?
    ensures rows[i][j].value in Flatten(rows)
  {
    var n := |rows| - 1;
    if i < n {
      assert rows[..n][i] == rows[i];
      FlattenComplete(rows[..n], i, j);
    } else {
      SomesComplete(rows[n], j);
    }
  }

  /** Nothing is detected exactly when no lookup finds anything. */
  lemma FlattenEmpty<T>(rows: seq<seq<Option<T>>>)
    ensures Flatten(rows) == [] <==>
      forall i, j :: 0 <= i < |rows| && 0 <= j < |rows[i]| ==> rows[i][j].None?
  {
    if Flatten(rows) == [] {
      forall i, j | 0 <= i < |rows| && 0 <= j < |rows[i]|
        ensures rows[i][j].None?
      {
        if rows[i][j].Some? {
          FlattenComplete(rows, i, j);
        }
      }
    } else {
      FlattenSound(rows);
      assert Flatten(rows)[0] in Flatten(rows);
    }
  }

  /** The element at position `q` of `Somes(os)` comes from some `os[j]`, and every value
      present before `j` is among the first `q` elements. */
  lemma {:induction false} SomesPrefix<T>(os: seq<Option<T>>, q: nat) returns (j: nat)
    requires q < |Somes(os)|
    ensures j < |os| && os[j] == Some(Somes(os)[q])
    ensures forall j' :: 0 <= j' < j && os[j'].Some? ==> os[j'].value in Somes(os)[..q]
  {
    var n := |os| - 1;
    var init := os[..n];
    assert forall x :: 0 <= x < n ==> init[x] == os[x];
    if q < |Somes(init)| {
      j := SomesPrefix(init, q);
      assert Somes(os)[..q] == Somes(init)[..q];
    } else {
      j := n;
      assert Somes(os)[..q] == Somes(init);
      forall j' | 0 <= j' < j && os[j'].Some?
        ensures os[j'].value in Somes(os)[..q]
      {
        SomesComplete(init, j');
      }
    }
  }

  /** Position `(i', j')` comes before `(i, j)` in the order of a nested loop. */
  predicate Before(i': nat, j': nat, i: nat, j: nat) {
    i' < i || (i' == i && j' < j)
  }

  /** The element at position `p` of `Flatten(rows)` comes from some `rows[i][j]`, and every
      value present at a position before `(i, j)` is among the first `p` elements. */
  lemma {:induction false} FlattenPrefix<T>(rows: seq<seq<Option<T>>>, p: nat) returns (i: nat, j: nat)
    requires p < |Flatten(rows)|
    ensures i < |rows| && j < |rows[i]| && rows[i][j] == Some(Flatten(rows)[p])
    ensures forall i': nat, j': nat :: Before(i', j', i, j) && i' < |rows| && j' < |rows[i']| && rows[i'][j'].Some? ==>
              rows[i'][j'].value in Flatten(rows)[..p]
  {
    var n := |rows| - 1;
    var init := rows[..n];
    assert forall x :: 0 <= x < n ==> init[x] == rows[x];
    var f := Flatten(init);
    if p < |f| {
      i, j := FlattenPrefix(init, p);
      assert Flatten(rows)[..p] == f[..p];
    } else {
      i := n;
      j := SomesPrefix(rows[n], p - |f|);
      assert Flatten(rows)[..p] == f + Somes(rows[n])[..p - |f|];
      forall i': nat, j': nat | Before(i', j', i, j) && i' < |rows| && j' < |rows[i']| && rows[i'][j'].Some?
        ensures rows[i'][j'].value in Flatten(rows)[..p]
      {
        if i' < n {
          FlattenComplete(init, i', j');
        }
      }
    }
  }

  // ---------------------------------------------------------------------------------------
  // Companies

  /** One detection: the company, the keyword's score and where it was first found. */
  datatype CompanyHit = CompanyHit(company: CompanyType, score: int, position: nat)

  /** The score of a keyword found first at `index` and `occurrences` times in all: its
      length, 10 more in the first 500 characters or 5 more in the first 1000, and 15 more
      when it occurs more than three times. */
  function Score(length: nat, index: nat, occurrences: nat): (s: int)
    ensures length <= s <= length + 25
    ensures (index < 500 && occurrences <= 3) ==> s == length + 10
    ensures (500 <= index < 1000 && occurrences <= 3) ==> s == length + 5
    ensures (1000 <= index && occurrences <= 3) ==> s == length
    ensures occurrences > 3 ==> s >= length + 15
  {
    length + (if index < 500 then 10 else if index < 1000 then 5 else 0)
           + (if occurrences > 3 then 15 else 0)
  }

  /** The detection a keyword gives in the upper-cased text, if it occurs there. */
  function KeywordHit(upper: string, company: CompanyType, keyword: string): (h: Option<CompanyHit>)
    requires |keyword| > 0
    ensures h.Some? <==> IndexOfIgnoreCase(upper, ToUpper(keyword)).Some?
    ensures h.Some? ==> h.value.company == company && h.value.score >= |keyword|
  {
    var normalized := ToUpper(keyword);
    match IndexOfIgnoreCase(upper, normalized)
    case None => None
    case Some(index) =>
      Some(CompanyHit(company, Score(|keyword|, index, CountOccurrences(upper, normalized)), index))
  }

  /** Each keyword of one company, looked up in the upper-cased text. */
  function KeywordHits(upper: string, company: CompanyType, keywords: seq<string>): (hs: seq<Option<CompanyHit>>)
    requires forall j :: 0 <= j < |keywords| ==> |keywords[j]| > 0
    ensures |hs| == |keywords|
    ensures forall j :: 0 <= j < |keywords| ==> hs[j] == KeywordHit(upper, company, keywords[j])
  {
    seq(|keywords|, j requires 0 <= j < |keywords| => KeywordHit(upper, company, keywords[j]))
  }

  /** The lookups of `DetectCompany`'s nested loop, company by company in table order. */
  function HitRows(upper: string, table: KeywordTable<CompanyType>): (rows: seq<seq<Option<CompanyHit>>>)
    requires KeywordsPresent(table)
    ensures |rows| == |table|
    ensures forall i :: 0 <= i < |table| ==> rows[i] == KeywordHits(upper, table[i].0, table[i].1)
  {
    seq(|table|, i requires 0 <= i < |table| => KeywordHits(upper, table[i].0, table[i].1))
  }

  /** All detections, company by company in table order and keyword by keyword. */
  function Hits(upper: string, table: KeywordTable<CompanyType>): seq<CompanyHit>
    requires KeywordsPresent(table)
  {
    Flatten(HitRows(upper, table))
  }

  /** Detections are exactly the keywords of the table that occur in the upper-cased text:
      every detection comes from one, and every one gives a detection. */
  lemma HitsSpec(upper: string, table: KeywordTable<CompanyType>)
    requires KeywordsPresent(table)
    ensures forall h :: h in Hits(upper, table) ==>
      exists i, j :: 0 <= i < |table| && 0 <= j < |table[i].1| &&
        KeywordHit(upper, table[i].0, table[i].1[j]) == Some(h)
    ensures forall i, j ::
      (0 <= i < |table| && 0 <= j < |table[i].1| &&
       IndexOfIgnoreCase(upper, ToUpper(table[i].1[j])).Some?) ==>
        KeywordHit(upper, table[i].0, table[i].1[j]).value in Hits(upper, table)
    ensures Hits(upper, table) == [] <==>
      forall i, j :: 0 <= i < |table| && 0 <= j < |table[i].1| ==>
        IndexOfIgnoreCase(upper, ToUpper(table[i].1[j])).None?
  {
    var rows := HitRows(upper, table);
    FlattenSound(rows);
    FlattenEmpty(rows);
    forall i, j | 0 <= i < |table| && 0 <= j < |table[i].1| &&
      IndexOfIgnoreCase(upper, ToUpper(table[i].1[j])).Some?
      ensures KeywordHit(upper, table[i].0, table[i].1[j]).value in Hits(upper, table)
    {
      FlattenComplete(rows, i, j);
    }
  }

  /** `OrderByDescending(score).ThenBy(position)`: `a` sorts strictly before `b`. */
  predicate Outranks(a: CompanyHit, b: CompanyHit) {
    a.score > b.score || (a.score == b.score && a.position < b.position)
  }

  /** `OrderByDescending(score).ThenBy(position).First()`: no detection outranks the winner,
      and every detection listed before it is outranked by it (the sort is stable). */
  function BestHit(hits: seq<CompanyHit>): (b: CompanyHit)
    requires |hits| > 0
    ensures b in hits
    ensures forall h :: h in hits ==> !Outranks(h, b)
    ensures exists k :: 0 <= k < |hits| && hits[k] == b && forall j :: 0 <= j < k ==> Outranks(b, hits[j])
  {
    if |hits| == 1 then hits[0]
    else
      var r := BestHit(hits[1..]);
      assert forall h :: h in hits ==> h == hits[0] || h in hits[1..];
      if Outranks(r, hits[0]) then
        var k :| 0 <= k < |hits[1..]| && hits[1..][k] == r && forall j :: 0 <= j < k ==> Outranks(r, hits[1..][j]);
        assert hits[k + 1] == r;
        r
      else hits[0]
  }

  /** `CalculateConfidence`: the score over 20, at most 0.8, plus 0.1 for more than one
      detection and 0.1 for a score above 15, at most 1. */
  function CalculateConfidence(bestScore: int, totalDetections: nat): (c: real)
    ensures c <= 1.0
    ensures bestScore >= 0 ==> 0.0 <= c
    ensures bestScore > 15 ==> c == (if totalDetections > 1 then 1.0 else 0.9)
    ensures bestScore <= 15 ==>
      c == bestScore as real / 20.0 + (if totalDetections > 1 then 0.1 else 0.0)
  {
    var base := if bestScore as real / 20.0 < 0.8 then bestScore as real / 20.0 else 0.8;
    var withCount := if totalDetections > 1 then base + 0.1 else base;
    var withScore := if bestScore > 15 then withCount + 0.1 else withCount;
    if withScore < 1.0 then withScore else 1.0
  }

  /** `ExtractCompanyName`: the company's longest keyword (the first of the longest) when the
      original text contains it, ignoring case, and otherwise the enum's name; nothing for a
      company the table does not list. */
  function CompanyName(text: string, company: CompanyType, table: KeywordTable<CompanyType>): (n: Option<string>)
    requires KeywordsPresent(table)
    ensures n.None? <==> forall i :: 0 <= i < |table| ==> table[i].0 != company
    ensures n.Some? ==>
      exists i, k :: 0 <= i < |table| && table[i].0 == company &&
        (forall i' :: 0 <= i' < i ==> table[i'].0 != company) &&
        0 <= k < |table[i].1| && LongestFirst(table[i].1, k) &&
        n.value == (if IndexOfIgnoreCase(text, table[i].1[k]).Some? then table[i].1[k]
                    else CompanyTypeName(company))
  {
    match Lookup(table, company)
    case None => None
    case Some(keywords) =>
      var longest := FirstMaximal(keywords, (k: string) => |k|);
      var k :| 0 <= k < |keywords| && keywords[k] == longest &&
               forall j :: 0 <= j < k ==> |keywords[j]| < |longest|;
      assert LongestFirst(keywords, k);
      if IndexOfIgnoreCase(text, longest).Some? then Some(longest) else Some(CompanyTypeName(company))
  }

  /** `keywords[k]` is a longest keyword, and every keyword before it is shorter. */
  predicate LongestFirst(keywords: seq<string>, k: nat)
    requires k < |keywords|
  {
    && (forall j :: 0 <= j < |keywords| ==> |keywords[j]| <= |keywords[k]|)
    && (forall j :: 0 <= j < k ==> |keywords[j]| < |keywords[k]|)
  }

  /** Of AXA's two longest keywords the first, "AXA SİGORTA", is the one looked for: text that
      holds only the dotless "AXA SIGORTA" gets the enum's name, since 'I' and 'İ' differ
      even ignoring case. */
  lemma DottedKeywordExample(text: string)
    requires text == "AXA SIGORTA"
    ensures KeywordsPresent(CompanyKeywords) && CompanyName(text, Axa, CompanyKeywords) == Some("Axa")
  {
    CompanyKeywordsShape();
    AxaEntry();
    AxaLongest();
    DottedAbsent(text);
    LongestAbsent(text, Axa, CompanyKeywords, ["AXA", "AXA SİGORTA", "AXA SIGORTA"]);
  }

  /** When the text lacks the first longest keyword of the company's entry, the name is the
      enum's name. */
  lemma LongestAbsent(text: string, company: CompanyType, table: KeywordTable<CompanyType>, keywords: seq<string>)
    requires KeywordsPresent(table) && Lookup(table, company) == Some(keywords)
    requires IndexOfIgnoreCase(text, FirstMaximal(keywords, (k: string) => |k|)).None?
    ensures CompanyName(text, company, table) == Some(CompanyTypeName(company))
  {
  }

  lemma AxaLongest()
    ensures FirstMaximal(["AXA", "AXA SİGORTA", "AXA SIGORTA"], (k: string) => |k|) == "AXA SİGORTA"
  {
    var kws := ["AXA", "AXA SİGORTA", "AXA SIGORTA"];
    assert |kws[0]| == 3 && |kws[1]| == 11 && |kws[2]| == 11;
  }

  lemma DottedAbsent(text: string)
    requires text == "AXA SIGORTA"
    ensures IndexOfIgnoreCase(text, "AXA SİGORTA").None?
  {
    var k := "AXA SİGORTA";
    assert !OccursAt(ToUpper(text), ToUpper(k), 0) by {
      assert ToUpper(text)[5] == 'I' && ToUpper(k)[5] == 'İ';
    }
  }

  /** AXA's entry is the third of the second part of the dictionary. */
  lemma AxaEntry()
    ensures Lookup(CompanyKeywords, Axa) == Some(["AXA", "AXA SİGORTA", "AXA SIGORTA"])
  {
    var k12 := CompanyKeywords1 + CompanyKeywords2;
    var k123 := k12 + CompanyKeywords3;
    var k1234 := k123 + CompanyKeywords4;
    AxaNotFirst();
    AxaSecond();
    LookupAppend(CompanyKeywords1, CompanyKeywords2, Axa);
    LookupAppend(k12, CompanyKeywords3, Axa);
    LookupAppend(k123, CompanyKeywords4, Axa);
    LookupAppend(k1234, CompanyKeywords5, Axa);
  }

  lemma AxaNotFirst()
    ensures Lookup(CompanyKeywords1, Axa).None?
  {
    CompanyKeywords1Shape();
    assert forall i :: 0 <= i < 7 ==> CompanyKeywords1[i].0 != Axa;
  }

  lemma AxaSecond()
    ensures Lookup(CompanyKeywords2, Axa) == Some(["AXA", "AXA SİGORTA", "AXA SIGORTA"])
  {
  }

  /** A lookup in two tables one after the other finds the first table's entry, if it has one. */
  lemma {:induction false} LookupAppend<K>(a: KeywordTable<K>, b: KeywordTable<K>, k: K)
    ensures Lookup(a + b, k) == if Lookup(a, k).Some? then Lookup(a, k) else Lookup(b, k)
  {
    if a == [] {
      assert a + b == b;
    } else {
      assert (a + b)[1..] == a[1..] + b;
      LookupAppend(a[1..], b, k);
    }
  }

  /** What `DetectCompany` returns: the company, its display name and the confidence. */
  datatype CompanyDetection = CompanyDetection(company: CompanyType, name: Option<string>, confidence: real)

  /** The detection `DetectCompany` computes from the text and the dictionary. */
  function CompanyDetectionOf(text: string, table: KeywordTable<CompanyType>): CompanyDetection
    requires KeywordsPresent(table)
  {
    if IsBlank(text) then CompanyDetection(Unknown, None, 0.0)
    else
      var hits := Hits(ToUpper(text), table);
      if hits == [] then CompanyDetection(Unknown, None, 0.0)
      else
        var best := BestHit(hits);
        CompanyDetection(best.company, CompanyName(text, best.company, table),
                         CalculateConfidence(best.score, |hits|))
  }

  /** The body of the inner loop of `DetectCompany`: one keyword looked up and scored. */
  method DetectKeyword(upper: string, company: CompanyType, keyword: string) returns (hit: Option<CompanyHit>)
    requires |keyword| > 0
    ensures hit == KeywordHit(upper, company, keyword)
  {
    var normalized := ToUpper(keyword);
    var index := IndexOfIgnoreCase(upper, normalized);
    if index.None? {
      return None;
    }
    var score := |keyword|;
    if index.value < 500 {
      score := score + 10;
    } else if index.value < 1000 {
      score := score + 5;
    }
    var occurrences := CountOccurrences(upper, normalized);
    if occurrences > 3 {
      score := score + 15;
    }
    assert score == Score(|keyword|, index.value, occurrences);
    hit := Some(CompanyHit(company, score, index.value));
  }

  /** The nested loop of `DetectCompany`: a hit for every keyword of every company whose
      upper-cased form occurs in `upper`, in table order. */
  method CollectHits(upper: string, table: KeywordTable<CompanyType>) returns (hits: seq<CompanyHit>)
    requires KeywordsPresent(table)
    ensures hits == Flatten(HitRows(upper, table))
  {
    ghost var rows := HitRows(upper, table);
    hits := [];
    for i := 0 to |table|
      invariant hits == Flatten(rows[..i])
    {
      assert rows[..i + 1][..i] == rows[..i];
      var found := CollectKeywordHits(upper, table[i].0, table[i].1);
      hits := hits + found;
    }
    assert rows[..|table|] == rows;
  }

  /** The inner loop of `DetectCompany`: the hits of one company's keywords, in order. */
  method CollectKeywordHits(upper: string, company: CompanyType, keywords: seq<string>)
    returns (hits: seq<CompanyHit>)
    requires forall j :: 0 <= j < |keywords| ==> |keywords[j]| > 0
    ensures hits == Somes(KeywordHits(upper, company, keywords))
  {
    ghost var row := KeywordHits(upper, company, keywords);
    hits := [];
    for j := 0 to |keywords|
      invariant hits == Somes(row[..j])
    {
      assert row[..j + 1][..j] == row[..j];
      var hit := DetectKeyword(upper, company, keywords[j]);
      if hit.Some? {
        hits := hits + [hit.value];
      }
    }
    assert row[..|keywords|] == row;
  }

  /** `DetectCompany`: every keyword of every company is looked up in the upper-cased text and
      scored; the best detection wins. */
  method DetectCompany(text: string, table: KeywordTable<CompanyType>) returns (r: CompanyDetection)
    requires KeywordsPresent(table)
    ensures r == CompanyDetectionOf(text, table)
  {
    if IsBlank(text) {
      return CompanyDetection(Unknown, None, 0.0);
    }
    var upper := ToUpper(text);
    var hits := CollectHits(upper, table);
    if hits == [] {
      return CompanyDetection(Unknown, None, 0.0);
    }
    var best := BestHit(hits);
    r := CompanyDetection(best.company, CompanyName(text, best.company, table),
                          CalculateConfidence(best.score, |hits|));
  }

  /** No keyword of the dictionary occurs in the upper-cased text. */
  predicate NoKeywordOccurs(upper: string, table: KeywordTable<CompanyType>)
    requires KeywordsPresent(table)
  {
    forall i, j :: 0 <= i < |table| && 0 <= j < |table[i].1| ==>
      IndexOfIgnoreCase(upper, ToUpper(table[i].1[j])).None?
  }

  /** Blank text, or text in which no keyword occurs, gives (Unknown, null, 0); otherwise the
      detected company is one of the dictionary's, one of whose keywords occurs in the text,
      and it has a display name. */
  lemma DetectCompanyOutcome(text: string, table: KeywordTable<CompanyType>)
    requires CompanyTable(table)
    ensures var r := CompanyDetectionOf(text, table);
            r.company == Unknown <==> IsBlank(text) || NoKeywordOccurs(ToUpper(text), table)
    ensures var r := CompanyDetectionOf(text, table);
            r.company == Unknown ==> r == CompanyDetection(Unknown, None, 0.0)
    ensures var r := CompanyDetectionOf(text, table);
            r.company != Unknown ==>
              r.name.Some? &&
              exists i, j :: 0 <= i < |table| && 0 <= j < |table[i].1| && table[i].0 == r.company &&
                IndexOfIgnoreCase(ToUpper(text), ToUpper(table[i].1[j])).Some?
  {
    var upper := ToUpper(text);
    HitsSpec(upper, table);
    if !IsBlank(text) && Hits(upper, table) != [] {
      var best := BestHit(Hits(upper, table));
      var i, j :| 0 <= i < |table| && 0 <= j < |table[i].1| &&
        KeywordHit(upper, table[i].0, table[i].1[j]) == Some(best);
      assert table[i].0 == best.company;
    }
  }

  /** The confidence of a detection lies in [0, 1]. */
  lemma DetectCompanyConfidence(text: string, table: KeywordTable<CompanyType>)
    requires KeywordsPresent(table)
    ensures 0.0 <= CompanyDetectionOf(text, table).confidence <= 1.0
  {
    var upper := ToUpper(text);
    if !IsBlank(text) && Hits(upper, table) != [] {
      HitsSpec(upper, table);
      var best := BestHit(Hits(upper, table));
      var i, j :| 0 <= i < |table| && 0 <= j < |table[i].1| &&
        KeywordHit(upper, table[i].0, table[i].1[j]) == Some(best);
      assert best.score >= 0;
    }
  }

  /** The winner scores at least as high as every keyword found in the text, and on an equal
      score it was found no later. */
  lemma DetectCompanyWinner(text: string, table: KeywordTable<CompanyType>, i: nat, j: nat)
    requires KeywordsPresent(table) && !IsBlank(text)
    requires i < |table| && j < |table[i].1|
    requires IndexOfIgnoreCase(ToUpper(text), ToUpper(table[i].1[j])).Some?
    ensures var hits := Hits(ToUpper(text), table);
            var h := KeywordHit(ToUpper(text), table[i].0, table[i].1[j]).value;
            hits != [] && !Outranks(h, BestHit(hits)) &&
            CompanyDetectionOf(text, table).company == BestHit(hits).company
  {
    HitsSpec(ToUpper(text), table);
  }

  // ---------------------------------------------------------------------------------------
  // Lines of business

  /** The local `policyTypeKeywords` dictionary of `DetectPolicyType`, in declaration order. */
  const PolicyTypeKeywords: KeywordTable<PolicyType> := [
    (Trafik, ["TRAFİK SİGORTASI", "ZORUNLU TRAFİK", "KARAYOLLARI MOTORLU", "TRAFİK POLİÇESİ", "TRAFIK"]),
    (Kasko, ["KASKO", "MOTORLİ ARAÇLAR KASKO", "TAM KASKO", "KASKO SİGORTASI"]),
    (Dask, ["DASK", "ZORUNLU DEPREM", "DEPREM SİGORTASI"]),
    (Konut, ["KONUT SİGORTASI", "EV SİGORTASI", "KONUT POLİÇESİ"]),
    (Hayat, ["YILLIK HAYAT SİGORTASI", "HAYAT SİGORTASI SERTİFİKASI", "HAYAT SİGORTASI", "HAYAT POLİÇESİ"]),
    (Saglik, ["SAĞLIK SİGORTASI", "TAMAMLAYICI SAĞLIK", "ÖZEL SAĞLIK"]),
    (Isyeri, ["İŞYERİ SİGORTASI", "TİCARİ SİGORTA", "İŞYERİ POLİÇESİ"]),
    (FerdiKaza, ["FERDİ KAZA", "KİŞİSEL KAZA", "FERDİ KAZA SİGORTASI"]),
    (Seyahat, ["SEYAHAT SİGORTASI", "YURT DIŞI SAĞLIK", "SEYAHAT POLİÇESİ"]),
    (YabanciSaglik, ["YABANCI SAĞLIK", "YURT DIŞI SAĞLIK", "YAB. SAĞLIK"]),
    (Nakliyat, ["NAKLİYAT SİGORTASI", "EMTİA NAKLİYAT", "TAŞIMACILIK SİGORTASI"]),
    (Yangin, ["YANGIN SİGORTASI", "YANGIN POLİÇESİ", "YANGIN VE HIRSIZLIK"]),
    (Muhendislik, ["MÜHENDİSLİK SİGORTASI", "İNŞAAT SİGORTASI", "MAKİNA KIRILMASI"]),
    (Sorumluluk, ["SORUMLULUK SİGORTASI", "ÜÇÜNCÜ ŞAHIS SORUMLULUK", "MALİ SORUMLULUK"]),
    (Tarim, ["TARIM SİGORTASI", "TARIMSAL ÜRÜN", "HAYVAN SİGORTASI"])
  ]

  /** The shape of a line-of-business dictionary: `Unknown` is never a key. */
  predicate PolicyTypeTable(table: KeywordTable<PolicyType>) {
    forall i :: 0 <= i < |table| ==> table[i].0 != UnknownPolicy
  }

  lemma PolicyTypeKeywordsShape()
    ensures PolicyTypeTable(PolicyTypeKeywords)
    ensures |PolicyTypeKeywords| == 15
  {
  }

  /** One detection: the line of business and the keyword's length. */
  datatype TypeHit = TypeHit(policyType: PolicyType, score: int)

  /** The detection a keyword gives: its length, when the upper-cased text contains the
      upper-cased keyword. */
  function KeywordTypeHit(upper: string, policyType: PolicyType, keyword: string): (h: Option<TypeHit>)
    ensures h.Some? <==> Contains(upper, ToUpper(keyword))
    ensures h.Some? ==> h.value == TypeHit(policyType, |keyword|)
  {
    if Contains(upper, ToUpper(keyword)) then Some(TypeHit(policyType, |keyword|)) else None
  }

  /** The lookups of one line of business's keywords, in order. */
  function KeywordTypeHits(upper: string, policyType: PolicyType, keywords: seq<string>): (hs: seq<Option<TypeHit>>)
    ensures |hs| == |keywords|
    ensures forall j :: 0 <= j < |keywords| ==> hs[j] == KeywordTypeHit(upper, policyType, keywords[j])
  {
    seq(|keywords|, j requires 0 <= j < |keywords| => KeywordTypeHit(upper, policyType, keywords[j]))
  }

  /** The lookups of `DetectPolicyType`'s nested loop, type by type in table order. */
  function TypeHitRows(upper: string, table: KeywordTable<PolicyType>): (rows: seq<seq<Option<TypeHit>>>)
    ensures |rows| == |table|
    ensures forall i :: 0 <= i < |table| ==> rows[i] == KeywordTypeHits(upper, table[i].0, table[i].1)
    ensures forall i :: 0 <= i < |table| ==> |rows[i]| == |table[i].1|
    ensures forall i, j :: 0 <= i < |table| && 0 <= j < |table[i].1| ==>
      rows[i][j] == KeywordTypeHit(upper, table[i].0, table[i].1[j])
  {
    seq(|table|, i requires 0 <= i < |table| => KeywordTypeHits(upper, table[i].0, table[i].1))
  }

  /** `detections.Count(d => d.type == t)`. */
  function CountType(hits: seq<TypeHit>, t: PolicyType): (n: nat)
    ensures n <= |hits|
    ensures n > 0 <==> exists h :: h in hits && h.policyType == t
  {
    if hits == [] then 0
    else
      assert forall h :: h in hits ==> h == hits[0] || h in hits[1..];
      (if hits[0].policyType == t then 1 else 0) + CountType(hits[1..], t)
  }

  /** The confidence of a line of business with `matchCount` detections: 0.7 plus 0.1 per
      detection, at most 0.95. */
  function PolicyTypeConfidence(matchCount: nat): (c: real)
    ensures matchCount >= 1 ==> 0.8 <= c <= 0.95
    ensures c == (if matchCount == 0 then 0.7 else if matchCount == 1 then 0.8
                  else if matchCount == 2 then 0.9 else 0.95)
  {
    var raw := 0.7 + matchCount as real * 0.1;
    if raw < 0.95 then raw else 0.95
  }

  /** What `DetectPolicyType` returns. */
  datatype PolicyTypeDetection = PolicyTypeDetection(policyType: PolicyType, confidence: real)

  /** The detection `DetectPolicyType` computes: the type of the first longest keyword
      found, scored by how many of the found keywords are of that type. */
  function PolicyTypeDetectionOf(text: string, table: KeywordTable<PolicyType>): PolicyTypeDetection {
    var hits := Flatten(TypeHitRows(ToUpper(text), table));
    if hits == [] then PolicyTypeDetection(UnknownPolicy, 0.0)
    else
      var best := FirstMaximal(hits, (h: TypeHit) => h.score);
      PolicyTypeDetection(best.policyType, PolicyTypeConfidence(CountType(hits, best.policyType)))
  }

  /** The nested loop of `DetectPolicyType`: a detection for every keyword of every line of
      business whose upper-cased form occurs in `upper`, in table order. */
  method CollectTypeHits(upper: string, table: KeywordTable<PolicyType>) returns (hits: seq<TypeHit>)
    ensures hits == Flatten(TypeHitRows(upper, table))
  {
    ghost var rows := TypeHitRows(upper, table);
    hits := [];
    for i := 0 to |table|
      invariant hits == Flatten(rows[..i])
    {
      assert rows[..i + 1][..i] == rows[..i];
      var found := CollectKeywordTypeHits(upper, table[i].0, table[i].1);
      hits := hits + found;
    }
    assert rows[..|table|] == rows;
  }

  /** The inner loop of `DetectPolicyType`: the detections of one line of business's
      keywords, in order. */
  method CollectKeywordTypeHits(upper: string, policyType: PolicyType, keywords: seq<string>)
    returns (hits: seq<TypeHit>)
    ensures hits == Somes(KeywordTypeHits(upper, policyType, keywords))
  {
    ghost var row := KeywordTypeHits(upper, policyType, keywords);
    hits := [];
    for j := 0 to |keywords|
      invariant hits == Somes(row[..j])
    {
      assert row[..j + 1][..j] == row[..j];
      if Contains(upper, ToUpper(keywords[j])) {
        hits := hits + [TypeHit(policyType, |keywords[j]|)];
      }
    }
    assert row[..|keywords|] == row;
  }

  /** `DetectPolicyType`: every keyword of every line of business is looked for in the
      upper-cased text; the longest one found decides. */
  method DetectPolicyType(text: string, table: KeywordTable<PolicyType>) returns (r: PolicyTypeDetection)
    ensures r == PolicyTypeDetectionOf(text, table)
  {
    var upper := ToUpper(text);
    var hits := CollectTypeHits(upper, table);
    if hits == [] {
      return PolicyTypeDetection(UnknownPolicy, 0.0);
    }
    var best := FirstMaximal(hits, (h: TypeHit) => h.score);
    var matchCount := CountType(hits, best.policyType);
    r := PolicyTypeDetection(best.policyType, PolicyTypeConfidence(matchCount));
  }

  /** No keyword of the dictionary occurs in the upper-cased text. */
  predicate NoTypeKeywordOccurs(upper: string, table: KeywordTable<PolicyType>) {
    forall i, j :: 0 <= i < |table| && 0 <= j < |table[i].1| ==> !Contains(upper, ToUpper(table[i].1[j]))
  }

  /** Nothing found gives (Unknown, 0); otherwise the winner is a type with a keyword in the
      text, no keyword found in the text is longer than the winner's, every keyword found
      earlier in table order is shorter (the sort is stable), and the confidence lies in
      [0.8, 0.95]. */
  lemma DetectPolicyTypeOutcome(text: string, table: KeywordTable<PolicyType>)
    requires PolicyTypeTable(table)
    ensures var r := PolicyTypeDetectionOf(text, table);
            r.policyType == UnknownPolicy <==> NoTypeKeywordOccurs(ToUpper(text), table)
    ensures var r := PolicyTypeDetectionOf(text, table);
            r.policyType == UnknownPolicy ==> r.confidence == 0.0
    ensures var r := PolicyTypeDetectionOf(text, table);
            r.policyType != UnknownPolicy ==>
              0.8 <= r.confidence <= 0.95 &&
              exists i, j :: 0 <= i < |table| && 0 <= j < |table[i].1| && table[i].0 == r.policyType &&
                Contains(ToUpper(text), ToUpper(table[i].1[j])) && FirstLongestFound(ToUpper(text), table, i, j)
  {
    var upper := ToUpper(text);
    var rows := TypeHitRows(upper, table);
    FlattenEmpty(rows);
    if Flatten(rows) != [] {
      var i, j := TypeWinner(upper, table);
    }
  }

  /** No keyword found in the text is longer than `table[i].1[j]`, and every keyword found
      before it in table order is shorter. */
  predicate FirstLongestFound(upper: string, table: KeywordTable<PolicyType>, i: nat, j: nat)
    requires i < |table| && j < |table[i].1|
  {
    && (forall i', j' ::
          (0 <= i' < |table| && 0 <= j' < |table[i'].1| && Contains(upper, ToUpper(table[i'].1[j']))) ==>
            |table[i'].1[j']| <= |table[i].1[j]|)
    && (forall i', j' ::
          (0 <= i' < |table| && 0 <= j' < |table[i'].1| && Before(i', j', i, j) &&
           Contains(upper, ToUpper(table[i'].1[j']))) ==> |table[i'].1[j']| < |table[i].1[j]|)
  }

  /** The winning detection is that of a keyword found in the text, the first of the longest. */
  lemma TypeWinner(upper: string, table: KeywordTable<PolicyType>) returns (i: nat, j: nat)
    requires Flatten(TypeHitRows(upper, table)) != []
    ensures i < |table| && j < |table[i].1|
    ensures FirstMaximal(Flatten(TypeHitRows(upper, table)), (h: TypeHit) => h.score)
            == TypeHit(table[i].0, |table[i].1[j]|)
    ensures Contains(upper, ToUpper(table[i].1[j]))
    ensures FirstLongestFound(upper, table, i, j)
  {
    var rows: seq<seq<Option<TypeHit>>> := TypeHitRows(upper, table);
    var hits: seq<TypeHit> := Flatten(rows);
    var best := FirstMaximal(hits, (h: TypeHit) => h.score);
    var p :| 0 <= p < |hits| && hits[p] == best && forall q :: 0 <= q < p ==> hits[q].score < best.score;
    i, j := FlattenPrefix(rows, p);
    NoneLonger(upper, table, i, j);
    NoneEarlierAsLong(upper, table, i, j, p);
  }

  lemma NoneLonger(upper: string, table: KeywordTable<PolicyType>, i: nat, j: nat)
    requires i < |table| && j < |table[i].1|
    requires forall h :: h in Flatten(TypeHitRows(upper, table)) ==> h.score <= |table[i].1[j]|
    ensures forall i', j' ::
      (0 <= i' < |table| && 0 <= j' < |table[i'].1| && Contains(upper, ToUpper(table[i'].1[j']))) ==>
        |table[i'].1[j']| <= |table[i].1[j]|
  {
    var rows: seq<seq<Option<TypeHit>>> := TypeHitRows(upper, table);
    forall i', j' | 0 <= i' < |table| && 0 <= j' < |table[i'].1| && Contains(upper, ToUpper(table[i'].1[j']))
      ensures |table[i'].1[j']| <= |table[i].1[j]|
    {
      FlattenComplete(rows, i', j');
    }
  }

  lemma NoneEarlierAsLong(upper: string, table: KeywordTable<PolicyType>, i: nat, j: nat, p: nat)
    requires i < |table| && j < |table[i].1|
    requires var hits := Flatten(TypeHitRows(upper, table));
             p <= |hits| && forall q :: 0 <= q < p ==> hits[q].score < |table[i].1[j]|
    requires var rows := TypeHitRows(upper, table);
             forall i': nat, j': nat :: Before(i', j', i, j) && i' < |rows| && j' < |rows[i']| && rows[i'][j'].Some? ==>
               rows[i'][j'].value in Flatten(rows)[..p]
    ensures forall i', j' ::
      (0 <= i' < |table| && 0 <= j' < |table[i'].1| && Before(i', j', i, j) &&
       Contains(upper, ToUpper(table[i'].1[j']))) ==> |table[i'].1[j']| < |table[i].1[j]|
  {
    var rows: seq<seq<Option<TypeHit>>> := TypeHitRows(upper, table);
    var hits: seq<TypeHit> := Flatten(rows);
    forall i', j' | 0 <= i' < |table| && 0 <= j' < |table[i'].1| && Before(i', j', i, j) &&
                    Contains(upper, ToUpper(table[i'].1[j']))
      ensures |table[i'].1[j']| < |table[i].1[j]|
    {
      var h := rows[i'][j'].value;
      assert h in hits[..p];
      var q :| 0 <= q < p && hits[..p][q] == h;
      assert hits[q] == h;
    }
  }

  /** How many keywords of the line of business `t` the upper-cased text contains, over the
      whole table. */
  function KeywordsFound(upper: string, t: PolicyType, table: KeywordTable<PolicyType>): nat {
    if table == [] then 0
    else
      var last := table[|table| - 1];
      KeywordsFound(upper, t, table[..|table| - 1]) + (if last.0 == t then FoundIn(upper, last.1) else 0)
  }

  /** How many of the keywords the upper-cased text contains. */
  function FoundIn(upper: string, keywords: seq<string>): nat {
    if keywords == [] then 0
    else
      FoundIn(upper, keywords[..|keywords| - 1])
      + (if Contains(upper, ToUpper(keywords[|keywords| - 1])) then 1 else 0)
  }

  /** The confidence of a detection counts every keyword of the winning line of business that
      the text contains, wherever it stands in the table. */
  lemma DetectPolicyTypeConfidence(text: string, table: KeywordTable<PolicyType>)
    requires PolicyTypeTable(table)
    ensures var r := PolicyTypeDetectionOf(text, table);
            r.policyType != UnknownPolicy ==>
              r.confidence == PolicyTypeConfidence(KeywordsFound(ToUpper(text), r.policyType, table))
  {
    var hits := Flatten(TypeHitRows(ToUpper(text), table));
    if hits != [] {
      var best := FirstMaximal(hits, (h: TypeHit) => h.score);
      CountFlatten(ToUpper(text), table, best.policyType);
    }
  }

  lemma {:induction false} CountTypeAppend(a: seq<TypeHit>, b: seq<TypeHit>, t: PolicyType)
    ensures CountType(a + b, t) == CountType(a, t) + CountType(b, t)
  {
    if a == [] {
      assert a + b == b;
    } else {
      assert (a + b)[1..] == a[1..] + b;
      CountTypeAppend(a[1..], b, t);
    }
  }

  lemma {:induction false} CountSomes(upper: string, p: PolicyType, keywords: seq<string>, t: PolicyType)
    ensures CountType(Somes(KeywordTypeHits(upper, p, keywords)), t) == if p == t then FoundIn(upper, keywords) else 0
  {
    if keywords != [] {
      var n := |keywords| - 1;
      var row := KeywordTypeHits(upper, p, keywords);
      KeywordTypeHitsPrefix(upper, p, keywords);
      CountSomes(upper, p, keywords[..n], t);
      var tail := if row[n].Some? then [row[n].value] else [];
      CountTypeAppend(Somes(row[..n]), tail, t);
      CountTypeOne(tail, t);
    }
  }

  lemma KeywordTypeHitsPrefix(upper: string, p: PolicyType, keywords: seq<string>)
    requires keywords != []
    ensures KeywordTypeHits(upper, p, keywords)[..|keywords| - 1]
            == KeywordTypeHits(upper, p, keywords[..|keywords| - 1])
  {
  }

  lemma CountTypeOne(hs: seq<TypeHit>, t: PolicyType)
    requires |hs| <= 1
    ensures CountType(hs, t) == if hs != [] && hs[0].policyType == t then 1 else 0
  {
    if hs != [] {
      assert hs[1..] == [];
    }
  }

  lemma {:induction false} CountFlatten(upper: string, table: KeywordTable<PolicyType>, t: PolicyType)
    ensures CountType(Flatten(TypeHitRows(upper, table)), t) == KeywordsFound(upper, t, table)
  {
    if table != [] {
      var n := |table| - 1;
      var rows := TypeHitRows(upper, table);
      assert rows[..n] == TypeHitRows(upper, table[..n]);
      CountFlatten(upper, table[..n], t);
      CountTypeAppend(Flatten(rows[..n]), Somes(rows[n]), t);
      CountSomes(upper, table[n].0, table[n].1, t);
    }
  }
}
