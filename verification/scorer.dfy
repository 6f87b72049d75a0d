/** The rule-based scorer: a capacity, a location and a stage sub-score, a keyword bonus,
    a clamp at 100 and the threshold step function that turns a score into a priority. */
module Scorer {
  import opened Text
  import opened Values
  import opened Config
  import opened Seqs
  import Validators

  // ---------------------------------------------------------------- priority

  datatype Priority = Critical | High | Medium | Low

  /** The string stored in a record's `priority` field. */
  function PriorityName(p: Priority): string {
    match p
    case Critical => "Critical"
    case High => "High"
    case Medium => "Medium"
    case Low => "Low"
  }

  /** The order of the priorities, Low lowest. */
  function Level(p: Priority): nat {
    match p
    case Low => 0
    case Medium => 1
    case High => 2
    case Critical => 3
  }

  /** `_determine_priority(score)`: the first threshold the score reaches, from Critical down. */
  function DeterminePriority(score: int, t: Thresholds): (p: Priority)
    ensures p == Critical <==> score >= t.critical
    ensures p == High <==> score < t.critical && score >= t.high
    ensures p == Medium <==> score < t.critical && score < t.high && score >= t.medium
    ensures p == Low <==> score < t.critical && score < t.high && score < t.medium
  {
    if score >= t.critical then Critical
    else if score >= t.high then High
    else if score >= t.medium then Medium
    else Low
  }

  /** With ordered thresholds a higher score never gets a lower priority. */
  lemma PriorityMonotone(a: int, b: int, t: Thresholds)
    requires Ordered(t) && a <= b
    ensures Level(DeterminePriority(a, t)) <= Level(DeterminePriority(b, t))
  {
  }

  /** With ordered thresholds each priority is an interval of scores. */
  lemma PriorityBands(score: int, t: Thresholds)
    requires Ordered(t)
    ensures DeterminePriority(score, t) == High <==> t.high <= score < t.critical
    ensures DeterminePriority(score, t) == Medium <==> t.medium <= score < t.high
    ensures DeterminePriority(score, t) == Low <==> score < t.medium
  {
  }

  // ---------------------------------------------------------------- capacity

  /** The values each sub-score can take. */
  predicate CapacityTier(n: int) { n == 10 || n == 15 || n == 20 || n == 25 || n == 30 }

  predicate CityTier(n: int) { n == 25 || n == 30 || n == 35 || n == 40 }

  predicate LocationTier(n: int) { n == 20 || CityTier(n) }

  predicate StageTier(n: int) { n == 15 || n == 20 || n == 25 || n == 30 }

  predicate BonusTier(n: int) { n == 0 || n == 5 || n == 10 }


  /** `int(capacity)`: an integer is itself, a string is parsed; `None` for `None` and where `int()` raises. */
  function CapacityAmount(capacity: Value): Option<int> {
    match capacity
    case Null => None
    case Int(i) => Some(i)
    case Str(s) => ParseInt(s)
  }

  /** `_score_capacity(capacity)`: 15 when unknown, otherwise a tier from 10 to 30. */
  function CapacityScore(capacity: Value): (r: int)
    ensures CapacityTier(r)
    ensures CapacityAmount(capacity).None? ==> r == 15
    ensures CapacityAmount(capacity).Some? ==>
      var n := CapacityAmount(capacity).value;
      && (n >= 80 <==> r == 30)
      && (60 <= n < 80 <==> r == 25)
      && (40 <= n < 60 <==> r == 20)
      && (20 <= n < 40 <==> r == 15)
      && (n < 20 <==> r == 10)
  {
    match CapacityAmount(capacity)
    case None => 15
    case Some(n) =>
      if n >= 80 then 30
      else if n >= 60 then 25
      else if n >= 40 then 20
      else if n >= 20 then 15
      else 10
  }

  /** More places never score lower. */
  lemma CapacityScoreMonotone(a: int, b: int)
    requires a <= b
    ensures CapacityScore(Int(a)) <= CapacityScore(Int(b))
  {
  }

  /** A capacity written as its decimal string scores like the number itself. */
  lemma CapacityScoreOfText(n: int)
    ensures CapacityScore(Str(IntToDecimal(n))) == CapacityScore(Int(n))
  {
    ParseIntDecimal(n);
  }

  // ---------------------------------------------------------------- location

  /** `CANADA_CITY_SCORES.get(city)`: the tier of a lower-cased Canadian city. */
  function CanadaCityScore(city: string): (r: Option<int>)
    ensures r.Some? ==> CityTier(r.value)
  {
    if city == "toronto" || city == "vancouver" || city == "montreal" then Some(40)
    else if city == "calgary" || city == "edmonton" || city == "ottawa" || city == "winnipeg" then Some(35)
    else if city == "quebec city" || city == "hamilton" || city == "kitchener" || city == "london"
      || city == "victoria" || city == "halifax" then Some(30)
    else if city == "oshawa" || city == "windsor" || city == "saskatoon" || city == "regina"
      || city == "st. catharines" || city == "kelowna" || city == "barrie" then Some(25)
    else None
  }

  /** `AUSTRALIA_CITY_SCORES.get(city)`: the tier of a lower-cased Australian city. */
  function AustraliaCityScore(city: string): (r: Option<int>)
    ensures r.Some? ==> CityTier(r.value)
  {
    if city == "sydney" || city == "melbourne" || city == "brisbane" then Some(40)
    else if city == "perth" || city == "adelaide" || city == "canberra" then Some(35)
    else if city == "gold coast" || city == "newcastle" || city == "sunshine coast"
      || city == "wollongong" || city == "hobart" || city == "geelong" then Some(30)
    else if city == "townsville" || city == "cairns" || city == "darwin"
      || city == "toowoomba" || city == "ballarat" || city == "bendigo" then Some(25)
    else None
  }

  /** `score = table.get(city); if score: return score; return 20` */
  function TableScore(entry: Option<int>): (r: int)
    requires entry.Some? ==> CityTier(entry.value)
    ensures LocationTier(r)
    ensures entry.None? <==> r == 20
    ensures entry.Some? ==> r == entry.value
  {
    if entry.Some? && entry.value != 0 then entry.value else 20
  }

  /** The country text the tables are chosen by: `country.lower() if country else ''`. */
  function CountryKey(country: Value): string
    requires Validators.TextLike(country)
  {
    if Truthy(country) then Lower(country.s) else ""
  }

  predicate MentionsCanada(k: string) {
    Contains(k, "canada") || Contains(k, "🇨🇦")
  }

  predicate MentionsAustralia(k: string) {
    Contains(k, "australia") || Contains(k, "🇦🇺")
  }

  /** `_score_location(city, country)`: the Canadian table when the country mentions Canada, else the
      Australian table when it mentions Australia, else 20; an empty or unlisted city scores 20. */
  function LocationScore(city: Value, country: Value): (r: int)
    requires Validators.TextLike(city) && (Truthy(city) ==> Validators.TextLike(country))
    ensures LocationTier(r)
    ensures !Truthy(city) ==> r == 20
    ensures Truthy(city) && !MentionsCanada(CountryKey(country)) && !MentionsAustralia(CountryKey(country)) ==> r == 20
    ensures Truthy(city) && MentionsCanada(CountryKey(country)) ==>
      (CanadaCityScore(Lower(Strip(city.s))).Some? <==> r != 20)
    ensures Truthy(city) && !MentionsCanada(CountryKey(country)) && MentionsAustralia(CountryKey(country)) ==>
      (AustraliaCityScore(Lower(Strip(city.s))).Some? <==> r != 20)
    ensures Truthy(city) && MentionsCanada(CountryKey(country)) && CanadaCityScore(Lower(Strip(city.s))).Some? ==>
      r == CanadaCityScore(Lower(Strip(city.s))).value
    ensures (Truthy(city) && !MentionsCanada(CountryKey(country)) && MentionsAustralia(CountryKey(country))
             && AustraliaCityScore(Lower(Strip(city.s))).Some?) ==>
      r == AustraliaCityScore(Lower(Strip(city.s))).value
  {
    if !Truthy(city) then 20
    else
      var c := Lower(Strip(city.s));
      var k := CountryKey(country);
      if MentionsCanada(k) then TableScore(CanadaCityScore(c))
      else if MentionsAustralia(k) then TableScore(AustraliaCityScore(c))
      else 20
  }

  /** Every city the scorer rates is in the validator's list of major cities of the same country. */
  lemma ScoredCitiesAreMajor(c: string)
    ensures CanadaCityScore(c).Some? ==> Validators.IsCanadaMajorCity(c)
    ensures AustraliaCityScore(c).Some? ==> Validators.IsAustraliaMajorCity(c)
  {
  }

  /** A location score above the default is earned only by a major city. */
  lemma LocationAboveDefaultIsMajorCity(city: Value, country: Value)
    requires Validators.TextLike(city) && (Truthy(city) ==> Validators.TextLike(country))
    requires LocationScore(city, country) > 20
    ensures Validators.IsCanadaMajorCity(Lower(Strip(city.s))) || Validators.IsAustraliaMajorCity(Lower(Strip(city.s)))
  {
    ScoredCitiesAreMajor(Lower(Strip(city.s)));
  }

  // ---------------------------------------------------------------- stage

  /** `any(k in s for k in keys)` */
  predicate AnyIn(keys: seq<string>, s: string) {
    exists i :: 0 <= i < |keys| && Contains(s, keys[i])
  }

  /** `x.lower() if x else ''` */
  function LowerOrEmpty(v: Value): string
    requires Validators.TextLike(v)
  {
    if Truthy(v) then Lower(v.s) else ""
  }

  const NewTypeKeys: seq<string> := ["新建", "new", "新发"]
  const NewStatusKeys: seq<string> := ["新发", "new", "issued"]
  const ExpansionTypeKeys: seq<string> := ["扩建", "expansion", "expand"]
  const ExpansionStatusKeys: seq<string> := ["扩容", "expansion"]
  const ChangeStatusKeys: seq<string> := ["变更", "change", "amendment"]
  const RenewalStatusKeys: seq<string> := ["续期", "renewal", "renew"]
  const SaleTypeKeys: seq<string> := ["交易", "sale", "出售"]
  const TenderTypeKeys: seq<string> := ["招标", "tender", "rfp"]

  /** `_score_stage(project_type, license_status)`: keyword groups tried in a fixed order, 20 by default. */
  function StageScore(projectType: Value, status: Value): (r: int)
    requires Validators.TextLike(projectType) && Validators.TextLike(status)
    ensures StageTier(r)
    ensures AnyIn(NewTypeKeys, LowerOrEmpty(projectType)) ==> r == 30
    ensures r == 30 <==> AnyIn(NewTypeKeys, LowerOrEmpty(projectType)) || AnyIn(NewStatusKeys, LowerOrEmpty(status))
    ensures r == 15 ==> AnyIn(RenewalStatusKeys, LowerOrEmpty(status))
    ensures var t, s := LowerOrEmpty(projectType), LowerOrEmpty(status);
      var isNew := AnyIn(NewTypeKeys, t) || AnyIn(NewStatusKeys, s);
      var isExpansion := AnyIn(ExpansionTypeKeys, t) || AnyIn(ExpansionStatusKeys, s);
      var isChange := AnyIn(ChangeStatusKeys, s);
      var isRenewal := AnyIn(RenewalStatusKeys, s);
      var isDeal := AnyIn(SaleTypeKeys, t) || AnyIn(TenderTypeKeys, t);
      (!isNew && isExpansion ==> r == 25) &&
      (!isNew && !isExpansion && isChange ==> r == 20) &&
      (!isNew && !isExpansion && !isChange && isRenewal ==> r == 15) &&
      (!isNew && !isExpansion && !isChange && !isRenewal && isDeal ==> r == 25) &&
      (!isNew && !isExpansion && !isChange && !isRenewal && !isDeal ==> r == 20)
  {
    var t := LowerOrEmpty(projectType);
    var s := LowerOrEmpty(status);
    if AnyIn(NewTypeKeys, t) then 30
    else if AnyIn(NewStatusKeys, s) then 30
    else if AnyIn(ExpansionTypeKeys, t) then 25
    else if AnyIn(ExpansionStatusKeys, s) then 25
    else if AnyIn(ChangeStatusKeys, s) then 20
    else if AnyIn(RenewalStatusKeys, s) then 15
    else if AnyIn(SaleTypeKeys, t) then 25
    else if AnyIn(TenderTypeKeys, t) then 25
    else 20
  }

  /** `renew` and `renewal` contain `new`, so a status that mentions a renewal in English scores as a new
      licence; only the Chinese keyword reaches the renewal score. */
  lemma EnglishRenewalScoresAsNew(projectType: Value, status: Value)
    requires Validators.TextLike(projectType) && Validators.TextLike(status)
    requires Contains(LowerOrEmpty(status), "renew")
    ensures StageScore(projectType, status) == 30
  {
    var s := LowerOrEmpty(status);
    var renew := "renew";
    ContainsAt(renew, "new", 2);
    ContainsTransitive(s, renew, "new");
    assert NewStatusKeys[1] == "new";
  }

  // ---------------------------------------------------------------- bonus

  const PublicKeys: seq<string> := ["government", "public", "municipal", "政府"]
  const CommunityKeys: seq<string> := ["school", "community", "学校", "社区"]

  /** `any(k in name or k in notes for k in keys)` */
  predicate Mentions(keys: seq<string>, name: string, notes: string) {
    exists i :: 0 <= i < |keys| && (Contains(name, keys[i]) || Contains(notes, keys[i]))
  }

  /** `str(record.get(k, '')).lower()` */
  function FieldText(record: Dict, k: string): string {
    Lower(Show(Get(record, k, Str(""))))
  }

  /** `_calculate_bonus(record)`: 5 for a public-sector keyword and 5 for a school or community keyword,
      in the name or the notes. */
  function Bonus(record: Dict): (r: int)
    ensures BonusTier(r)
    ensures var name := FieldText(record, "name");
      var notes := FieldText(record, "notes");
      && (r == 10 <==> Mentions(PublicKeys, name, notes) && Mentions(CommunityKeys, name, notes))
      && (r == 0 <==> !Mentions(PublicKeys, name, notes) && !Mentions(CommunityKeys, name, notes))
  {
    var notes := FieldText(record, "notes");
    var name := FieldText(record, "name");
    (if Mentions(PublicKeys, name, notes) then 5 else 0) + (if Mentions(CommunityKeys, name, notes) then 5 else 0)
  }

  /** A keyword in a string is still there after text is appended. */
  lemma ContainsExtend(s: string, more: string, k: string)
    requires Contains(s, k)
    ensures Contains(s + more, k)
  {
    var i := ContainsIndex(s, k);
    assert (s + more)[i..i + |k|] == s[i..i + |k|];
    ContainsAt(s + more, k, i);
  }

  /** Adding to the notes never lowers the bonus. */
  lemma BonusGrowsWithNotes(record: Dict, extra: string)
    requires "notes" in record && record["notes"].Str?
    ensures Bonus(record) <= Bonus(record["notes" := Str(record["notes"].s + extra)])
  {
    var longer := record["notes" := Str(record["notes"].s + extra)];
    var n := FieldText(record, "notes");
    var m := FieldText(longer, "notes");
    assert m == n + Lower(extra);
    forall i | 0 <= i < |PublicKeys| && Contains(n, PublicKeys[i])
      ensures Contains(m, PublicKeys[i])
    {
      ContainsExtend(n, Lower(extra), PublicKeys[i]);
    }
    forall i | 0 <= i < |CommunityKeys| && Contains(n, CommunityKeys[i])
      ensures Contains(m, CommunityKeys[i])
    {
      ContainsExtend(n, Lower(extra), CommunityKeys[i]);
    }
    assert FieldText(longer, "name") == FieldText(record, "name");
  }

  // ---------------------------------------------------------------- score_record

  /** The fields `score_record` reads as strings: `.lower()` on them must not raise. */
  predicate ScorerInput(record: Dict) {
    var city := Get(record, "city", Str(""));
    && Validators.TextLike(city)
    && (Truthy(city) ==> Validators.TextLike(Get(record, "country", Str(""))))
    && Validators.TextLike(Get(record, "type", Str("")))
    && Validators.TextLike(Get(record, "license_status", Str("")))
  }

  datatype SubScores = SubScores(capacity: int, location: int, stage: int, bonus: int)

  function SubScoresOf(record: Dict): (s: SubScores)
    requires ScorerInput(record)
    ensures CapacityTier(s.capacity) && LocationTier(s.location)
    ensures StageTier(s.stage) && BonusTier(s.bonus)
  {
    SubScores(
      CapacityScore(Get(record, "capacity", Null)),
      LocationScore(Get(record, "city", Str("")), Get(record, "country", Str(""))),
      StageScore(Get(record, "type", Str("")), Get(record, "license_status", Str(""))),
      Bonus(record))
  }

  /** `min(100, capacity + location + stage + bonus)`: always between 45 and 100. */
  function Total(s: SubScores): (total: int)
    requires s.capacity >= 10 && s.location >= 20 && s.stage >= 15 && s.bonus >= 0
    ensures 45 <= total <= 100
    ensures total <= s.capacity + s.location + s.stage + s.bonus
    ensures total == 100 || total == s.capacity + s.location + s.stage + s.bonus
  {
    var sum := s.capacity + s.location + s.stage + s.bonus;
    if sum < 100 then sum else 100
  }

  /** The score `score_record` gives a record. */
  function RuleScore(record: Dict): (score: int)
    requires ScorerInput(record)
    ensures 45 <= score <= 100
  {
    Total(SubScoresOf(record))
  }

  function RulePriority(record: Dict, t: Thresholds): Priority
    requires ScorerInput(record)
  {
    DeterminePriority(RuleScore(record), t)
  }

  /** The fields `score_record` writes. */
  predicate IsScoreField(k: string) {
    k == "ai_score" || k == "capacity_score" || k == "location_score" || k == "stage_score"
    || k == "priority" || k == "scoring_method"
  }

  /** The six assignments of `score_record`, given the values they store. */
  function Stamp(record: Dict, s: SubScores, total: int, priority: string): Dict {
    record["ai_score" := Int(total)]
          ["capacity_score" := Int(s.capacity)]
          ["location_score" := Int(s.location)]
          ["stage_score" := Int(s.stage)]
          ["priority" := Str(priority)]
          ["scoring_method" := Str("rule_based")]
  }

  /** Stamping adds the scoring fields and leaves every other field as it was. */
  lemma StampKeeps(record: Dict, s: SubScores, total: int, priority: string)
    ensures var r := Stamp(record, s, total, priority);
      && (forall k :: k in r <==> k in record || IsScoreField(k))
      && (forall k :: k in record && !IsScoreField(k) ==> r[k] == record[k])
  {
  }

  /** `score_record(record)`. The update in place is modelled as returning the updated record. */
  function ScoreRecord(record: Dict, t: Thresholds): (r: Dict)
    requires ScorerInput(record)
    ensures "ai_score" in r && r["ai_score"] == Int(RuleScore(record))
    ensures "priority" in r && r["priority"] == Str(PriorityName(RulePriority(record, t)))
    ensures "scoring_method" in r && r["scoring_method"] == Str("rule_based")
    ensures forall k :: k in record ==> k in r
  {
    var s := SubScoresOf(record);
    var total := Total(s);
    Stamp(record, s, total, PriorityName(DeterminePriority(total, t)))
  }

  /** `score_record` writes the total, the three sub-scores, the priority the total earns and the
      method `rule_based`. */
  lemma ScoreRecordWrites(record: Dict, t: Thresholds)
    requires ScorerInput(record)
    ensures var r := ScoreRecord(record, t);
      && r["ai_score"].Int? && 45 <= r["ai_score"].i <= 100 && r["ai_score"] == Int(RuleScore(record))
      && r["capacity_score"] == Int(SubScoresOf(record).capacity)
      && r["location_score"] == Int(SubScoresOf(record).location)
      && r["stage_score"] == Int(SubScoresOf(record).stage)
      && r["priority"] == Str(PriorityName(DeterminePriority(RuleScore(record), t)))
      && r["scoring_method"] == Str("rule_based")
  {
  }

  /** `score_record` adds the scoring fields and leaves every other field as it was. */
  lemma ScoreRecordKeeps(record: Dict, t: Thresholds)
    requires ScorerInput(record)
    ensures var r := ScoreRecord(record, t);
      && (forall k :: k in r <==> k in record || IsScoreField(k))
      && (forall k :: k in record && !IsScoreField(k) ==> r[k] == record[k])
  {
    var sub := SubScoresOf(record);
    StampKeeps(record, sub, Total(sub), PriorityName(DeterminePriority(Total(sub), t)));
  }

  // ---------------------------------------------------------------- batch_score

  /** `score_distribution`: how many records got each priority. */
  datatype Distribution = Distribution(critical: nat, high: nat, medium: nat, low: nat)

  function Sum(d: Distribution): nat {
    d.critical + d.high + d.medium + d.low
  }

  /** `score_distribution[p] += 1` */
  function Tally(d: Distribution, p: Priority): (r: Distribution)
    ensures Sum(r) == Sum(d) + 1
  {
    match p
    case Critical => d.(critical := d.critical + 1)
    case High => d.(high := d.high + 1)
    case Medium => d.(medium := d.medium + 1)
    case Low => d.(low := d.low + 1)
  }

  /** Reads back a `priority` field written by `PriorityName`; `None` for any other value. */
  function ParsePriority(v: Value): (p: Option<Priority>)
    ensures p.Some? ==> v == Str(PriorityName(p.value))
  {
    if v == Str("Critical") then Some(Critical)
    else if v == Str("High") then Some(High)
    else if v == Str("Medium") then Some(Medium)
    else if v == Str("Low") then Some(Low)
    else None
  }

  /** The priority a scored record is tallied under: `record.get('priority', 'Low')`. */
  function TalliedPriority(r: Dict): Option<Priority> {
    ParsePriority(Get(r, "priority", Str("Low")))
  }

  /** A scored record is tallied under the priority its score earns. */
  lemma ScoredPriority(record: Dict, t: Thresholds)
    requires ScorerInput(record)
    ensures TalliedPriority(ScoreRecord(record, t)) == Some(RulePriority(record, t))
  {
    var p := RulePriority(record, t);
    ScoreRecordWrites(record, t);
    assert ParsePriority(Str(PriorityName(p))) == Some(p);
  }

  /** The distribution of a list of priorities, counted in order. */
  function Distribute(ps: seq<Priority>): (d: Distribution)
    ensures Sum(d) == |ps|
  {
    if ps == [] then Distribution(0, 0, 0, 0) else Tally(Distribute(ps[..|ps| - 1]), ps[|ps| - 1])
  }

  /** How often `p` occurs in `ps`. */
  function Occurrences(ps: seq<Priority>, p: Priority): nat {
    multiset(ps)[p]
  }

  /** Each field of the distribution is the number of occurrences of its priority. */
  lemma {:induction false} DistributeCounts(ps: seq<Priority>)
    ensures Distribute(ps) ==
      Distribution(Occurrences(ps, Critical), Occurrences(ps, High), Occurrences(ps, Medium), Occurrences(ps, Low))
    decreases |ps|
  {
    if ps != [] {
      var init := ps[..|ps| - 1];
      var last := ps[|ps| - 1];
      DistributeCounts(init);
      assert ps == init + [last];
      assert multiset(ps) == multiset(init) + multiset{last};
    }
  }

  /** `score_record` under the thresholds `t`, on the records it can read. */
  function RuleScorer(t: Thresholds): Dict --> Dict {
    record requires ScorerInput(record) => ScoreRecord(record, t)
  }

  /** The priority `score_record` gives a record under the thresholds `t`. */
  function RulePrioritizer(t: Thresholds): Dict --> Priority {
    record requires ScorerInput(record) => RulePriority(record, t)
  }

  /** `[score_record(r) for r in records]` */
  function ScoreAll(records: seq<Dict>, t: Thresholds): (scored: seq<Dict>)
    requires forall i :: 0 <= i < |records| ==> ScorerInput(records[i])
  {
    Map(records, RuleScorer(t))
  }

  /** The priorities a list of records earns, in order. */
  function Priorities(records: seq<Dict>, t: Thresholds): (ps: seq<Priority>)
    requires forall i :: 0 <= i < |records| ==> ScorerInput(records[i])
  {
    Map(records, RulePrioritizer(t))
  }

  /** Scoring one more record extends both lists by that record's score and priority. */
  lemma PrefixSnoc(records: seq<Dict>, i: nat, t: Thresholds)
    requires i < |records|
    requires forall j :: 0 <= j < |records| ==> ScorerInput(records[j])
    ensures ScoreAll(records[..i + 1], t) == ScoreAll(records[..i], t) + [ScoreRecord(records[i], t)]
    ensures Priorities(records[..i + 1], t) == Priorities(records[..i], t) + [RulePriority(records[i], t)]
  {
    MapSnoc(records, RuleScorer(t), i);
    MapSnoc(records, RulePrioritizer(t), i);
  }

  /** `scored = self.score_record(record)`, appended to the results of the records before it. */
  method AppendScored(records: seq<Dict>, i: nat, t: Thresholds, scored: seq<Dict>) returns (next: seq<Dict>)
    requires i < |records| && forall j :: 0 <= j < |records| ==> ScorerInput(records[j])
    requires scored == ScoreAll(records[..i], t)
    ensures next == ScoreAll(records[..i + 1], t)
  {
    PrefixSnoc(records, i, t);
    next := scored + [ScoreRecord(records[i], t)];
  }

  /** `score_distribution[scored['priority']] += 1` */
  method TallyRecord(records: seq<Dict>, i: nat, t: Thresholds, dist: Distribution) returns (next: Distribution)
    requires i < |records| && forall j :: 0 <= j < |records| ==> ScorerInput(records[j])
    requires dist == Distribute(Priorities(records[..i], t))
    ensures next == Distribute(Priorities(records[..i + 1], t))
  {
    var record := records[i];
    var scored := ScoreRecord(record, t);
    ScoredPriority(record, t);
    var p := TalliedPriority(scored).value;
    PrefixSnoc(records, i, t);
    ghost var ps := Priorities(records[..i], t);
    assert (ps + [p])[..|ps|] == ps;
    next := Tally(dist, p);
  }

  /** `batch_score(records)`: scores every record in order and counts the priorities. */
  method BatchScore(records: seq<Dict>, t: Thresholds) returns (scored: seq<Dict>, dist: Distribution)
    requires forall i :: 0 <= i < |records| ==> ScorerInput(records[i])
    ensures scored == ScoreAll(records, t)
    ensures dist == Distribute(Priorities(records, t))
  {
    if |records| == 0 {
      return [], Distribution(0, 0, 0, 0);
    }
    scored := [];
    dist := Distribution(0, 0, 0, 0);
    var i := 0;
    while i < |records|
      invariant 0 <= i <= |records|
      invariant scored == ScoreAll(records[..i], t)
      invariant dist == Distribute(Priorities(records[..i], t))
    {
      scored := AppendScored(records, i, t, scored);
      dist := TallyRecord(records, i, t, dist);
      i := i + 1;
    }
    assert records[..i] == records;
  }

  /** What `batch_score` returns: the records scored one by one, in order, and per priority
      the number of records that earned it. */
  lemma BatchScoreMeaning(records: seq<Dict>, t: Thresholds)
    requires forall i :: 0 <= i < |records| ==> ScorerInput(records[i])
    ensures forall i :: 0 <= i < |records| ==> ScoreAll(records, t)[i] == ScoreRecord(records[i], t)
    ensures forall i :: 0 <= i < |records| ==> TalliedPriority(ScoreAll(records, t)[i]) == Some(RulePriority(records[i], t))
    ensures forall i :: 0 <= i < |records| ==> Priorities(records, t)[i] == RulePriority(records[i], t)
    ensures var d := Distribute(Priorities(records, t)); var ps := Priorities(records, t);
      && Sum(d) == |records|
      && d == Distribution(Occurrences(ps, Critical), Occurrences(ps, High), Occurrences(ps, Medium), Occurrences(ps, Low))
  {
    forall i | 0 <= i < |records|
      ensures ScoreAll(records, t)[i] == ScoreRecord(records[i], t)
      ensures TalliedPriority(ScoreAll(records, t)[i]) == Some(RulePriority(records[i], t))
      ensures Priorities(records, t)[i] == RulePriority(records[i], t)
    {
      MapAt(records, RuleScorer(t), i);
      MapAt(records, RulePrioritizer(t), i);
      ScoredPriority(records[i], t);
    }
    DistributeCounts(Priorities(records, t));
  }
}
