/** The record processor: field-by-field normalisation, the validate-and-keep loop, and the
    classify, sort, filter and statistics reducers over record lists. */
module DataProcessing {
  import opened Text
  import opened Values
  import opened Seqs
  import opened Helpers
  import opened Validators

  // ---------------------------------------------------------------- normalize_record

  /** The fields `normalize_record` always writes. */
  const BaseFields: set<string> := {
    "name", "address", "city", "country", "province", "capacity", "phone", "email",
    "license_number", "license_status", "discovered_date", "source", "source_url",
    "ai_score", "priority", "ai_reasoning", "ai_recommendation", "notes", "type"}

  /** The sale fields, copied only when the input has them. */
  const SaleFields: set<string> := {"price", "annual_revenue", "cash_flow", "lease_remaining", "property_type"}

  /** The tender fields, copied only when the input has them; the two dates are reformatted. */
  const TenderFields: set<string> := {"published_date", "deadline_date", "contract_value", "tender_type", "organization"}

  /** `normalize_record` raises when the country is a truthy non-string (`normalize_country` strips it),
      or when the province is truthy and either it or the country is not a string. */
  predicate Normalizable(record: Dict) {
    var country := Get(record, "country", Str(""));
    var province := Get(record, "province", Str(""));
    TextLike(country) && (!Truthy(province) || (province.Str? && country.Str?))
  }

  /** The cleaned fields are fixed fields. */
  lemma CleanedAreBase()
    ensures CleanedFields <= BaseFields
  {
  }

  /** The sale and tender fields are not fixed fields. */
  lemma OptionalNotBase()
    ensures BaseFields !! SaleFields && BaseFields !! TenderFields
  {
  }

  /** The score, priority and type fields are fixed fields that no cleaner touches. */
  lemma ScoreFieldsUncleaned()
    ensures "ai_score" in BaseFields && "priority" in BaseFields && "type" in BaseFields
    ensures "ai_score" !in CleanedFields && "priority" !in CleanedFields && "type" !in CleanedFields
  {
  }

  /** `clean_capacity`'s result stored back in the record. */
  function CapacityValue(c: Option<int>): Value {
    match c
    case None => Null
    case Some(n) => Int(n)
  }

  /** `record.get('discovered_date') or get_today()`; today's date is a parameter. */
  function DiscoveredInput(record: Dict, today: string): Value {
    var d := Get(record, "discovered_date", Null);
    if Truthy(d) then d else Str(today)
  }

  /** The fixed fields whose value goes through a cleaner. */
  const CleanedFields: set<string> := {
    "name", "address", "city", "country", "province", "capacity", "phone", "email", "license_number", "discovered_date"}

  /** The value `normalize_record` writes under each cleaned field. */
  function CleanedValue(record: Dict, k: string, today: string, parse: (string, string) -> Option<string>): Value
    requires Normalizable(record)
  {
    var country := Get(record, "country", Str(""));
    if k == "name" then Str(CleanString(Get(record, "name", Str(""))))
    else if k == "address" then Str(CleanString(Get(record, "address", Str(""))))
    else if k == "city" then Str(Title(CleanString(Get(record, "city", Str("")))))
    else if k == "country" then Str(NormalizeCountry(country))
    else if k == "province" then Str(NormalizeProvince(Get(record, "province", Str("")), country))
    else if k == "capacity" then CapacityValue(CleanCapacity(Get(record, "capacity", Null)))
    else if k == "phone" then Str(CleanPhone(Get(record, "phone", Str(""))))
    else if k == "email" then Str(CleanEmail(Get(record, "email", Str(""))))
    else if k == "license_number" then Str(CleanString(Get(record, "license_number", Str(""))))
    else Str(FormattedDate(DiscoveredInput(record, today), parse))
  }

  /** The default of each field copied with `record.get(k, default)`. */
  function DefaultOf(k: string): Value {
    if k == "ai_score" then Int(50)
    else if k == "priority" then Str("Medium")
    else if k == "type" then Str("新建")
    else Str("")
  }

  /** The value of a sale or tender field the input has: the two tender dates go through `format_date`. */
  function CopiedValue(record: Dict, k: string, parse: (string, string) -> Option<string>): Value
    requires k in record
  {
    if k == "published_date" || k == "deadline_date" then Str(FormattedDate(record[k], parse)) else record[k]
  }

  /** `normalize_record`; `None` where it raises. */
  function NormalizeRecord(record: Dict, today: string, parse: (string, string) -> Option<string>): (r: Option<Dict>)
    ensures r.Some? <==> Normalizable(record)
    ensures r.Some? ==> r.value.Keys == BaseFields + (SaleFields + TenderFields) * record.Keys
  {
    if !Normalizable(record) then None
    else
      Some(map k | k in BaseFields + (SaleFields + TenderFields) * record.Keys ::
        if k in CleanedFields then CleanedValue(record, k, today, parse)
        else if k in BaseFields then Get(record, k, DefaultOf(k))
        else CopiedValue(record, k, parse))
  }

  /** The cleaned text fields: name, address and licence number are `clean_string` of the input,
      the city is its title case, the country and e-mail go through their cleaners, and the
      province is always text. */
  lemma NormalizedText(record: Dict, today: string, parse: (string, string) -> Option<string>)
    requires Normalizable(record)
    ensures var n := NormalizeRecord(record, today, parse).value;
      && n["name"] == Str(CleanString(Get(record, "name", Str(""))))
      && n["address"] == Str(CleanString(Get(record, "address", Str(""))))
      && n["license_number"] == Str(CleanString(Get(record, "license_number", Str(""))))
      && n["city"] == Str(Title(CleanString(Get(record, "city", Str("")))))
      && n["country"] == Str(NormalizeCountry(Get(record, "country", Str(""))))
      && n["email"] == Str(CleanEmail(Get(record, "email", Str(""))))
      && n["province"].Str?
  {
  }

  /** Missing scoring and type fields take the defaults 50, `Medium` and `新建`; present ones are kept as they are. */
  lemma NormalizedDefaults(record: Dict, today: string, parse: (string, string) -> Option<string>)
    requires Normalizable(record)
    ensures var n := NormalizeRecord(record, today, parse).value;
      && n["ai_score"] == (if "ai_score" in record then record["ai_score"] else Int(50))
      && n["priority"] == (if "priority" in record then record["priority"] else Str("Medium"))
      && n["type"] == (if "type" in record then record["type"] else Str("新建"))
  {
    ScoreFieldsUncleaned();
  }

  /** Every sale or tender field is in the output exactly when it is in the input; apart from the two
      tender dates, which are reformatted, its value is copied unchanged. */
  lemma OptionalFieldsKept(record: Dict, today: string, parse: (string, string) -> Option<string>, k: string)
    requires Normalizable(record) && k in SaleFields + TenderFields
    ensures var n := NormalizeRecord(record, today, parse).value;
      && (k in n <==> k in record)
      && (k in record && k != "published_date" && k != "deadline_date" ==> n[k] == record[k])
      && (k in record && (k == "published_date" || k == "deadline_date") ==> n[k] == Str(FormattedDate(record[k], parse)))
  {
    CleanedAreBase();
    OptionalNotBase();
  }

  /** A cleaned string is its own cleaning. */
  lemma {:induction false} CleanOfClean(t: string)
    requires Collapsed(t) && (t == [] || (!IsSpace(t[0]) && !IsSpace(t[|t| - 1])))
    ensures CleanString(Str(t)) == t
  {
    if t != "" {
      CollapseOfCollapsed(t);
      StripNoEdgeSpace(t);
    }
  }

  /** Title-casing moves no whitespace, so a cleaned string stays cleaned. */
  lemma {:induction false} TitleKeepsClean(t: string)
    requires Collapsed(t) && (t == [] || (!IsSpace(t[0]) && !IsSpace(t[|t| - 1])))
    ensures var u := Title(t); Collapsed(u) && (u == [] || (!IsSpace(u[0]) && !IsSpace(u[|u| - 1])))
  {
    var u := Title(t);
    forall i | 0 <= i < |t|
      ensures IsSpace(u[i]) <==> IsSpace(t[i])
      ensures IsSpace(u[i]) ==> u[i] == t[i]
    {
    }
  }

  /** The title case of a cleaned city is its own cleaning and title case. */
  lemma {:induction false} CityStable(v: Value)
    ensures var c := Title(CleanString(v)); Title(CleanString(Str(c))) == c
  {
    var t := CleanString(v);
    TitleKeepsClean(t);
    CleanOfClean(Title(t));
    TitleIdempotent(t);
  }

  /** A normalised record can be normalised again: its country and province are text. */
  lemma NormalizedNormalizable(record: Dict, today: string, parse: (string, string) -> Option<string>)
    requires Normalizable(record)
    ensures Normalizable(NormalizeRecord(record, today, parse).value)
  {
    NormalizedText(record, today, parse);
  }

  /** Normalising a normalised record leaves its name, address, city and licence number as they are. */
  lemma NormalizeStableText(record: Dict, today: string, parse: (string, string) -> Option<string>)
    requires Normalizable(record)
    ensures var n := NormalizeRecord(record, today, parse).value;
      Normalizable(n) &&
      var m := NormalizeRecord(n, today, parse).value;
      && m["name"] == n["name"] && m["address"] == n["address"] && m["city"] == n["city"]
      && m["license_number"] == n["license_number"]
  {
    var n := NormalizeRecord(record, today, parse).value;
    NormalizedNormalizable(record, today, parse);
    NormalizedText(record, today, parse);
    NormalizedText(n, today, parse);
    CleanStringIdempotent(Get(record, "name", Str("")));
    CleanStringIdempotent(Get(record, "address", Str("")));
    CleanStringIdempotent(Get(record, "license_number", Str("")));
    CityStable(Get(record, "city", Str("")));
  }

  /** Normalising a normalised record leaves its country as it is. */
  lemma NormalizeStableCountry(record: Dict, today: string, parse: (string, string) -> Option<string>)
    requires Normalizable(record)
    ensures var n := NormalizeRecord(record, today, parse).value;
      Normalizable(n) && NormalizeRecord(n, today, parse).value["country"] == n["country"]
  {
    var n := NormalizeRecord(record, today, parse).value;
    NormalizedNormalizable(record, today, parse);
    NormalizedText(record, today, parse);
    NormalizedText(n, today, parse);
    NormalizeCountryIdempotent(Get(record, "country", Str("")));
  }

  /** Normalising a normalised record leaves its e-mail as it is. The phone and the province are not
      stable: `+1 (NNN) NNN-NNNN` has eleven dialling characters starting with `1` and is laid out
      again, and `title()` re-cases a full province name such as `Newfoundland and Labrador`. */
  lemma NormalizeStableEmail(record: Dict, today: string, parse: (string, string) -> Option<string>)
    requires Normalizable(record)
    ensures var n := NormalizeRecord(record, today, parse).value;
      Normalizable(n) && NormalizeRecord(n, today, parse).value["email"] == n["email"]
  {
    var n := NormalizeRecord(record, today, parse).value;
    NormalizedNormalizable(record, today, parse);
    NormalizedText(record, today, parse);
    NormalizedText(n, today, parse);
    CleanEmailIdempotent(Get(record, "email", Str("")));
  }

  // ---------------------------------------------------------------- process_records

  /** The date check `validate_record` makes: the same `strptime` parse `format_date` uses succeeds. */
  function ParsesWith(parse: (string, string) -> Option<string>): (string, string) -> bool {
    (s, f) => parse(s, f).Some?
  }

  /** `normalize_record` with today's date and the date parser fixed; `None` where it raises. */
  function Normalizer(today: string, parse: (string, string) -> Option<string>): Dict -> Option<Dict> {
    r => NormalizeRecord(r, today, parse)
  }

  /** `validate_record(normalized, record_type)` reports no errors. */
  function Validity(recordType: string, parse: (string, string) -> Option<string>): Dict -> bool {
    n => TextOrAbsent(n, "country") && ValidationErrors(n, recordType, ParsesWith(parse)) == []
  }

  /** `process_records` keeps a record when `normalize` does not raise on it and `valid` accepts the result. */
  predicate Keeps(normalize: Dict -> Option<Dict>, valid: Dict -> bool, record: Dict) {
    normalize(record).Some? && valid(normalize(record).value)
  }

  function KeepsUnder(normalize: Dict -> Option<Dict>, valid: Dict -> bool): Dict -> bool {
    r => Keeps(normalize, valid, r)
  }

  /** The list `process_records` returns: the normalised forms of the kept records, in input order. */
  function Processed(records: seq<Dict>, normalize: Dict -> Option<Dict>, valid: Dict -> bool): seq<Dict> {
    if records == [] then []
    else
      var r := records[|records| - 1];
      Processed(records[..|records| - 1], normalize, valid)
        + (if Keeps(normalize, valid, r) then [normalize(r).value] else [])
  }

  /** `process_records`: normalise, validate, keep the valid ones. A record whose normalisation
      raises is caught and skipped like an invalid one. */
  method ProcessRecords(records: seq<Dict>, recordType: string, today: string, parse: (string, string) -> Option<string>)
    returns (processed: seq<Dict>)
    ensures processed == Processed(records, Normalizer(today, parse), Validity(recordType, parse))
  {
    processed := [];
    var i := 0;
    while i < |records|
      invariant i <= |records|
      invariant processed == Processed(records[..i], Normalizer(today, parse), Validity(recordType, parse))
    {
      processed := ProcessOne(records, i, processed, recordType, today, parse);
      i := i + 1;
    }
    assert records[..i] == records;
  }

  lemma ProcessedSnoc(records: seq<Dict>, r: Dict, normalize: Dict -> Option<Dict>, valid: Dict -> bool)
    ensures Processed(records + [r], normalize, valid)
      == Processed(records, normalize, valid) + (if Keeps(normalize, valid, r) then [normalize(r).value] else [])
  {
    assert (records + [r])[..|records|] == records;
  }

  /** One turn of `process_records`' loop: the `i`-th record's normalised form is appended when it
      normalises without raising and validates without errors. */
  method ProcessOne(records: seq<Dict>, i: nat, processed: seq<Dict>, recordType: string, today: string, parse: (string, string) -> Option<string>)
    returns (processed': seq<Dict>)
    requires i < |records|
    requires processed == Processed(records[..i], Normalizer(today, parse), Validity(recordType, parse))
    ensures processed' == Processed(records[..i + 1], Normalizer(today, parse), Validity(recordType, parse))
  {
    var record := records[i];
    processed' := processed;
    var normalized := NormalizeRecord(record, today, parse);
    assert Normalizer(today, parse)(record) == normalized;
    if normalized.Some? {
      NormalizedText(record, today, parse);
      var valid, _ := ValidateRecord(normalized.value, recordType, ParsesWith(parse));
      assert Validity(recordType, parse)(normalized.value) == valid;
      if valid {
        processed' := processed + [normalized.value];
      }
    }
    ProcessedSnoc(records[..i], record, Normalizer(today, parse), Validity(recordType, parse));
    assert records[..i] + [record] == records[..i + 1];
  }

  /** Every processed record is the normalised form of a kept input record. */
  lemma {:induction false} ProcessedSound(records: seq<Dict>, normalize: Dict -> Option<Dict>, valid: Dict -> bool, x: Dict)
    requires x in Processed(records, normalize, valid)
    ensures exists i :: 0 <= i < |records| && Keeps(normalize, valid, records[i]) && x == normalize(records[i]).value
  {
    var n := |records| - 1;
    if x in Processed(records[..n], normalize, valid) {
      ProcessedSound(records[..n], normalize, valid, x);
      var i :| 0 <= i < n && Keeps(normalize, valid, records[..n][i]) && x == normalize(records[..n][i]).value;
      assert records[..n][i] == records[i];
    } else {
      assert Keeps(normalize, valid, records[n]);
    }
  }

  /** Every kept input record appears, normalised, in the output. */
  lemma {:induction false} ProcessedComplete(records: seq<Dict>, normalize: Dict -> Option<Dict>, valid: Dict -> bool, i: nat)
    requires i < |records| && Keeps(normalize, valid, records[i])
    ensures normalize(records[i]).value in Processed(records, normalize, valid)
  {
    var n := |records| - 1;
    if i < n {
      assert records[..n][i] == records[i];
      ProcessedComplete(records[..n], normalize, valid, i);
    }
  }

  /** The output has one record per kept input record. */
  lemma {:induction false} ProcessedCount(records: seq<Dict>, normalize: Dict -> Option<Dict>, valid: Dict -> bool)
    ensures |Processed(records, normalize, valid)| == Count(records, KeepsUnder(normalize, valid))
  {
    if records != [] {
      var n := |records| - 1;
      ProcessedCount(records[..n], normalize, valid);
      FilterSnoc(records[..n], records[n], KeepsUnder(normalize, valid));
      assert records[..n] + [records[n]] == records;
    }
  }

  // ---------------------------------------------------------------- classify_records

  /** The three lists `classify_records` fills. */
  datatype Kind = NewProject | Sale | Tender

  /** `record_type in ['新建', 'new', '新建项目', 'new_project']` */
  predicate IsNewProjectType(t: string) {
    t == "新建" || t == "new" || t == "新建项目" || t == "new_project"
  }

  /** `record_type in ['交易', 'sale', '买卖', '出售']` */
  predicate IsSaleType(t: string) {
    t == "交易" || t == "sale" || t == "买卖" || t == "出售"
  }

  /** `record_type in ['招标', 'tender', 'rfp', 'rfq']` */
  predicate IsTenderType(t: string) {
    t == "招标" || t == "tender" || t == "rfp" || t == "rfq"
  }

  /** `record.get('type', '').lower()` */
  function TypeText(record: Dict): string {
    Lower(TextOf(record, "type"))
  }

  /** The list a lower-cased type goes to: a listed sale or tender type goes to its list, every
      other type, listed or not, to the new projects. */
  function KindOf(t: string): (k: Kind)
    ensures k == Sale <==> IsSaleType(t)
    ensures k == Tender <==> IsTenderType(t)
    ensures k == NewProject <==> !IsSaleType(t) && !IsTenderType(t)
  {
    if IsNewProjectType(t) then NewProject
    else if IsSaleType(t) then Sale
    else if IsTenderType(t) then Tender
    else NewProject
  }

  /** The records `kindOf` sends to the list of `k`. */
  function OfKindBy(kindOf: Dict -> Kind, k: Kind): Dict -> bool {
    r => kindOf(r) == k
  }

  /** The list `classify_records` sends a record to. */
  function Classifier(): Dict -> Kind {
    r => KindOf(TypeText(r))
  }

  function OfKind(k: Kind): Dict -> bool {
    OfKindBy(Classifier(), k)
  }

  /** The loop of `classify_records`, with the `if`/`elif` chain on the lower-cased type given as
      `kindOf`: each record is appended to the list of its kind. */
  method ClassifyBy(records: seq<Dict>, kindOf: Dict -> Kind) returns (newProjects: seq<Dict>, sales: seq<Dict>, tenders: seq<Dict>)
    ensures newProjects == Filter(records, OfKindBy(kindOf, NewProject))
    ensures sales == Filter(records, OfKindBy(kindOf, Sale))
    ensures tenders == Filter(records, OfKindBy(kindOf, Tender))
  {
    newProjects, sales, tenders := [], [], [];
    var i := 0;
    while i < |records|
      invariant i <= |records|
      invariant newProjects == Filter(records[..i], OfKindBy(kindOf, NewProject))
      invariant sales == Filter(records[..i], OfKindBy(kindOf, Sale))
      invariant tenders == Filter(records[..i], OfKindBy(kindOf, Tender))
    {
      var record := records[i];
      match kindOf(record) {
        case NewProject => newProjects := newProjects + [record];
        case Sale => sales := sales + [record];
        case Tender => tenders := tenders + [record];
      }
      FilterSnoc(records[..i], record, OfKindBy(kindOf, NewProject));
      FilterSnoc(records[..i], record, OfKindBy(kindOf, Sale));
      FilterSnoc(records[..i], record, OfKindBy(kindOf, Tender));
      assert records[..i] + [record] == records[..i + 1];
      i := i + 1;
    }
    assert records[..i] == records;
  }

  /** `classify_records`; the type of every record is a string or absent (`.lower()` raises otherwise). */
  method ClassifyRecords(records: seq<Dict>) returns (newProjects: seq<Dict>, sales: seq<Dict>, tenders: seq<Dict>)
    requires forall r :: r in records ==> TextOrAbsent(r, "type")
    ensures newProjects == Filter(records, OfKind(NewProject))
    ensures sales == Filter(records, OfKind(Sale))
    ensures tenders == Filter(records, OfKind(Tender))
  {
    newProjects, sales, tenders := ClassifyBy(records, Classifier());
  }

  /** Every record lands in exactly one of the three lists: together they are a rearrangement of the input. */
  lemma ClassifyPartition(records: seq<Dict>)
    ensures var n, s, t := Filter(records, OfKind(NewProject)), Filter(records, OfKind(Sale)), Filter(records, OfKind(Tender));
      && multiset(n) + multiset(s) + multiset(t) == multiset(records)
      && |n| + |s| + |t| == |records|
  {
    FilterPartition3(records, OfKind(NewProject), OfKind(Sale), OfKind(Tender));
  }

  // ---------------------------------------------------------------- sort_by_score

  /** The sort key `x.get('ai_score', 0)`. */
  function ScoreKey(record: Dict): int {
    if "ai_score" in record && record["ai_score"].Int? then record["ai_score"].i else 0
  }

  /** The score is a number or absent, so the keys compare. */
  predicate Scored(record: Dict) {
    "ai_score" !in record || record["ai_score"].Int?
  }

  /** `a` goes strictly before `b` in the requested direction. */
  predicate Precedes(a: Dict, b: Dict, descending: bool) {
    if descending then ScoreKey(a) > ScoreKey(b) else ScoreKey(a) < ScoreKey(b)
  }

  /** Insert `x`, which came before every element of `ys` in the input, ahead of all elements it
      does not strictly follow. */
  function Insert(x: Dict, ys: seq<Dict>, descending: bool): seq<Dict> {
    if ys == [] then [x]
    else if Precedes(ys[0], x, descending) then [ys[0]] + Insert(x, ys[1..], descending)
    else [x] + ys
  }

  /** `sorted(records, key=lambda x: x.get('ai_score', 0), reverse=descending)`: a stable sort. */
  function SortByScore(records: seq<Dict>, descending: bool): (sorted: seq<Dict>)
    requires forall r :: r in records ==> Scored(r)
    ensures |sorted| == |records|
  {
    if records == [] then []
    else
      InsertLength(records[0], SortByScore(records[1..], descending), descending);
      Insert(records[0], SortByScore(records[1..], descending), descending)
  }

  lemma {:induction false} InsertLength(x: Dict, ys: seq<Dict>, descending: bool)
    ensures |Insert(x, ys, descending)| == |ys| + 1
  {
    if ys != [] && Precedes(ys[0], x, descending) {
      InsertLength(x, ys[1..], descending);
    }
  }

  predicate Ordered(s: seq<Dict>, descending: bool) {
    forall i, j :: 0 <= i < j < |s| ==> !Precedes(s[j], s[i], descending)
  }

  lemma {:induction false} InsertPermutes(x: Dict, ys: seq<Dict>, descending: bool)
    ensures multiset(Insert(x, ys, descending)) == multiset(ys) + multiset{x}
  {
    if ys != [] && Precedes(ys[0], x, descending) {
      InsertPermutes(x, ys[1..], descending);
      assert ys == [ys[0]] + ys[1..];
    }
  }

  lemma {:induction false} InsertOrdered(x: Dict, ys: seq<Dict>, descending: bool)
    requires Ordered(ys, descending)
    ensures Ordered(Insert(x, ys, descending), descending)
  {
    if ys != [] && Precedes(ys[0], x, descending) {
      var rest := Insert(x, ys[1..], descending);
      InsertOrdered(x, ys[1..], descending);
      InsertPermutes(x, ys[1..], descending);
      forall j | 0 <= j < |rest|
        ensures !Precedes(rest[j], ys[0], descending)
      {
        assert rest[j] in multiset(rest);
        if rest[j] != x {
          var k :| 0 <= k < |ys[1..]| && ys[1..][k] == rest[j];
          assert ys[k + 1] == rest[j];
        }
      }
    }
  }

  /** The result is ordered by score in the requested direction. */
  lemma {:induction false} SortByScoreOrdered(records: seq<Dict>, descending: bool)
    requires forall r :: r in records ==> Scored(r)
    ensures Ordered(SortByScore(records, descending), descending)
  {
    if records != [] {
      SortByScoreOrdered(records[1..], descending);
      InsertOrdered(records[0], SortByScore(records[1..], descending), descending);
    }
  }

  /** The result holds the same records as the input, each as often. */
  lemma {:induction false} SortByScorePermutes(records: seq<Dict>, descending: bool)
    requires forall r :: r in records ==> Scored(r)
    ensures multiset(SortByScore(records, descending)) == multiset(records)
  {
    if records != [] {
      SortByScorePermutes(records[1..], descending);
      InsertPermutes(records[0], SortByScore(records[1..], descending), descending);
      assert records == [records[0]] + records[1..];
    }
  }

  function ScoreIs(k: int): Dict -> bool {
    r => ScoreKey(r) == k
  }

  /** Inserting `x` puts it after the records that strictly precede it, none of which has its
      score, and ahead of the rest. */
  lemma {:induction false} InsertStable(x: Dict, ys: seq<Dict>, descending: bool, k: int)
    ensures Filter(Insert(x, ys, descending), ScoreIs(k)) == (if ScoreKey(x) == k then [x] else []) + Filter(ys, ScoreIs(k))
  {
    var p := ScoreIs(k);
    var own := if p(x) then [x] else [];
    if ys != [] {
      var head := if p(ys[0]) then [ys[0]] else [];
      assert Filter(ys, p) == head + Filter(ys[1..], p);
      if Precedes(ys[0], x, descending) {
        var rest := Insert(x, ys[1..], descending);
        InsertStable(x, ys[1..], descending, k);
        assert ([ys[0]] + rest)[1..] == rest;
        assert Filter([ys[0]] + rest, p) == head + Filter(rest, p);
        assert head == [] || own == [];
      } else {
        assert ([x] + ys)[1..] == ys;
      }
    }
  }

  /** Records with equal scores keep their input order. */
  lemma {:induction false} SortByScoreStable(records: seq<Dict>, descending: bool, k: int)
    requires forall r :: r in records ==> Scored(r)
    ensures Filter(SortByScore(records, descending), ScoreIs(k)) == Filter(records, ScoreIs(k))
  {
    if records != [] {
      SortByScoreStable(records[1..], descending, k);
      InsertStable(records[0], SortByScore(records[1..], descending), descending, k);
    }
  }

  // ---------------------------------------------------------------- filter_by_priority

  /** `[p.lower() for p in priorities]` */
  function LowerAll(ps: seq<string>): (r: seq<string>)
    ensures |r| == |ps| && forall i :: 0 <= i < |ps| ==> r[i] == Lower(ps[i])
  {
    seq(|ps|, i requires 0 <= i < |ps| => Lower(ps[i]))
  }

  function PriorityIn(lowered: seq<string>): Dict -> bool {
    r => Lower(TextOf(r, "priority")) in lowered
  }

  /** `filter_by_priority`; the priority of every record is a string or absent. */
  function FilterByPriority(records: seq<Dict>, priorities: seq<string>): seq<Dict>
    requires forall r :: r in records ==> TextOrAbsent(r, "priority")
  {
    Filter(records, PriorityIn(LowerAll(priorities)))
  }

  /** A record is kept exactly when its priority matches one of the wanted ones, ignoring case. */
  lemma FilterByPriorityIff(records: seq<Dict>, priorities: seq<string>, x: Dict)
    requires forall r :: r in records ==> TextOrAbsent(r, "priority")
    ensures x in FilterByPriority(records, priorities)
      <==> x in records && exists i :: 0 <= i < |priorities| && Lower(priorities[i]) == Lower(TextOf(x, "priority"))
  {
    var lowered := LowerAll(priorities);
    if x in records && exists i :: 0 <= i < |priorities| && Lower(priorities[i]) == Lower(TextOf(x, "priority")) {
      var i :| 0 <= i < |priorities| && Lower(priorities[i]) == Lower(TextOf(x, "priority"));
      assert lowered[i] == Lower(TextOf(x, "priority"));
      FilterComplete(records, PriorityIn(lowered), x);
    }
    if x in FilterByPriority(records, priorities) {
      FilterSound(records, PriorityIn(lowered), x);
      assert Lower(TextOf(x, "priority")) in lowered;
    }
  }

  /** The kept records appear in their input order. */
  lemma FilterByPriorityKeepsOrder(records: seq<Dict>, priorities: seq<string>)
    requires forall r :: r in records ==> TextOrAbsent(r, "priority")
    ensures SubsequenceAt(FilterByPriority(records, priorities), records, FilterIndices(records, PriorityIn(LowerAll(priorities))))
  {
    FilterIsSubsequence(records, PriorityIn(LowerAll(priorities)));
  }

  /** The wanted priorities may be given in any case: lower-casing them first changes nothing. */
  lemma FilterByPriorityLowered(records: seq<Dict>, priorities: seq<string>)
    requires forall r :: r in records ==> TextOrAbsent(r, "priority")
    ensures FilterByPriority(records, LowerAll(priorities)) == FilterByPriority(records, priorities)
  {
    forall i | 0 <= i < |priorities|
      ensures Lower(Lower(priorities[i])) == Lower(priorities[i])
    {
      LowerIdempotent(priorities[i]);
    }
    assert LowerAll(LowerAll(priorities)) == LowerAll(priorities);
  }

  // ---------------------------------------------------------------- get_statistics

  /** The statistics dictionary: the record count, six country-by-type counters and four priority counters. */
  datatype Statistics = Statistics(
    total: nat,
    canadaNew: nat, canadaSales: nat, canadaTenders: nat,
    australiaNew: nat, australiaSales: nat, australiaTenders: nat,
    critical: nat, high: nat, medium: nat, low: nat)

  /** The type lists `get_statistics` uses; they are shorter than those of `classify_records`. */
  predicate IsCountedNewType(t: string) {
    t == "新建" || t == "new" || t == "new_project"
  }

  predicate IsCountedSaleType(t: string) {
    t == "交易" || t == "sale"
  }

  predicate IsCountedTenderType(t: string) {
    t == "招标" || t == "tender"
  }

  predicate InCanada(country: string) {
    Contains(country, "canada") || Contains(country, "🇨🇦")
  }

  predicate InAustralia(country: string) {
    Contains(country, "australia") || Contains(country, "🇦🇺")
  }

  function CountrySum(s: Statistics): nat {
    s.canadaNew + s.canadaSales + s.canadaTenders + s.australiaNew + s.australiaSales + s.australiaTenders
  }

  function PrioritySum(s: Statistics): nat {
    s.critical + s.high + s.medium + s.low
  }

  /** The country-by-type counter a record moves, if any: Canada is tested first, and a type
      outside the counted lists moves none. */
  function AccountCountry(s: Statistics, country: string, t: string): (r: Statistics)
    ensures r.total == s.total && PrioritySum(r) == PrioritySum(s)
    ensures r.critical == s.critical && r.high == s.high && r.medium == s.medium
    ensures CountrySum(s) <= CountrySum(r) <= CountrySum(s) + 1
    ensures !InCanada(country) && !InAustralia(country) ==> r == s
  {
    if InCanada(country) then
      if IsCountedNewType(t) then s.(canadaNew := s.canadaNew + 1)
      else if IsCountedSaleType(t) then s.(canadaSales := s.canadaSales + 1)
      else if IsCountedTenderType(t) then s.(canadaTenders := s.canadaTenders + 1)
      else s
    else if InAustralia(country) then
      if IsCountedNewType(t) then s.(australiaNew := s.australiaNew + 1)
      else if IsCountedSaleType(t) then s.(australiaSales := s.australiaSales + 1)
      else if IsCountedTenderType(t) then s.(australiaTenders := s.australiaTenders + 1)
      else s
    else s
  }

  /** The priority counter a record moves: anything unrecognised counts as low. */
  function AccountPriority(s: Statistics, priority: string): (r: Statistics)
    ensures r.total == s.total && CountrySum(r) == CountrySum(s)
    ensures PrioritySum(r) == PrioritySum(s) + 1
    ensures r.critical == s.critical + (if priority == "critical" then 1 else 0)
    ensures r.high == s.high + (if priority == "high" then 1 else 0)
    ensures r.medium == s.medium + (if priority == "medium" then 1 else 0)
  {
    if priority == "critical" then s.(critical := s.critical + 1)
    else if priority == "high" then s.(high := s.high + 1)
    else if priority == "medium" then s.(medium := s.medium + 1)
    else s.(low := s.low + 1)
  }

  /** The counters one record moves: at most one country-by-type counter and exactly one
      priority counter. */
  function Account(s: Statistics, record: Dict): (r: Statistics)
    ensures r.total == s.total
    ensures PrioritySum(r) == PrioritySum(s) + 1
    ensures CountrySum(s) <= CountrySum(r) <= CountrySum(s) + 1
  {
    AccountPriority(AccountCountry(s, Lower(TextOf(record, "country")), TypeText(record)), Lower(TextOf(record, "priority")))
  }

  /** The statistics after the loop has seen `records`, starting from `total` and zero counters. */
  function Tally(records: seq<Dict>, total: nat): Statistics {
    if records == [] then Statistics(total, 0, 0, 0, 0, 0, 0, 0, 0, 0, 0)
    else Account(Tally(records[..|records| - 1], total), records[|records| - 1])
  }

  /** `get_statistics`; the country, type and priority of every record are strings or absent. */
  method GetStatistics(records: seq<Dict>) returns (stats: Statistics)
    requires forall r :: r in records ==> TextOrAbsent(r, "country") && TextOrAbsent(r, "type") && TextOrAbsent(r, "priority")
    ensures stats == Tally(records, |records|)
  {
    stats := Statistics(|records|, 0, 0, 0, 0, 0, 0, 0, 0, 0, 0);
    var i := 0;
    while i < |records|
      invariant i <= |records|
      invariant stats == Tally(records[..i], |records|)
    {
      stats := Account(stats, records[i]);
      assert records[..i + 1][..i] == records[..i];
      i := i + 1;
    }
    assert records[..i] == records;
  }

  /** Every record is counted under exactly one priority, and under at most one country and type. */
  lemma {:induction false} TallyBounds(records: seq<Dict>, total: nat)
    ensures var s := Tally(records, total);
      s.total == total && PrioritySum(s) == |records| && CountrySum(s) <= |records|
  {
    if records != [] {
      TallyBounds(records[..|records| - 1], total);
    }
  }

  /** The statistics' priority counters add up to the total, and the country counters stay below it. */
  lemma StatisticsAddUp(records: seq<Dict>)
    ensures var s := Tally(records, |records|);
      PrioritySum(s) == s.total && CountrySum(s) <= s.total
  {
    TallyBounds(records, |records|);
  }

  function PriorityIs(p: string): Dict -> bool {
    r => Lower(TextOf(r, "priority")) == p
  }

  /** The critical, high and medium counters count the records with that priority, ignoring case. */
  lemma {:induction false} PriorityCounts(records: seq<Dict>, total: nat)
    ensures var s := Tally(records, total);
      && s.critical == Count(records, PriorityIs("critical"))
      && s.high == Count(records, PriorityIs("high"))
      && s.medium == Count(records, PriorityIs("medium"))
  {
    if records != [] {
      var n := |records| - 1;
      PriorityCounts(records[..n], total);
      FilterSnoc(records[..n], records[n], PriorityIs("critical"));
      FilterSnoc(records[..n], records[n], PriorityIs("high"));
      FilterSnoc(records[..n], records[n], PriorityIs("medium"));
      assert records[..n] + [records[n]] == records;
    }
  }
}
