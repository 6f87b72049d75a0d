/** The utility functions of the helpers module: whitespace cleaning, truncation, the record-id key,
    date formatting, postal-code extraction, priority lookups, chunking and nested lookup. */
module Helpers {
  import opened Text
  import opened Values
  import opened Seqs

  // ---------------------------------------------------------------- clean_string

  /** No whitespace except single spaces, and never two whitespace characters in a row. */
  ghost predicate Collapsed(s: string) {
    forall i :: 0 <= i < |s| && IsSpace(s[i]) ==> s[i] == ' ' && (i + 1 < |s| ==> !IsSpace(s[i + 1]))
  }

  /** `re.sub(r'\s+', ' ', s)`: every maximal run of whitespace becomes one space. */
  function CollapseSpaces(s: string): (r: string)
    ensures s == [] <==> r == []
    ensures s != [] ==> (IsSpace(s[0]) <==> IsSpace(r[0]))
    ensures Collapsed(r)
    decreases |s|
  {
    if s == [] then []
    else if IsSpace(s[0]) then " " + CollapseSpaces(LStrip(s[1..]))
    else [s[0]] + CollapseSpaces(s[1..])
  }

  lemma {:induction false} CollapseKeepsText(s: string)
    ensures NonSpace(CollapseSpaces(s)) == NonSpace(s)
    decreases |s|
  {
    if s != [] {
      if IsSpace(s[0]) {
        NonSpaceLStrip(s[1..]);
        CollapseKeepsText(LStrip(s[1..]));
        NonSpaceAppend(" ", CollapseSpaces(LStrip(s[1..])));
      } else {
        CollapseKeepsText(s[1..]);
        NonSpaceAppend([s[0]], CollapseSpaces(s[1..]));
      }
    }
  }

  /** `s.split()`: the maximal runs of non-whitespace characters of `s`, in order. */
  function Words(s: string): (ws: seq<string>)
    ensures s != [] && !IsSpace(s[0]) ==> ws != []
    decreases |s|
  {
    if s == [] then []
    else if IsSpace(s[0]) then Words(s[1..])
    else
      var rest := Words(s[1..]);
      if |s| > 1 && !IsSpace(s[1]) then [[s[0]] + rest[0]] + rest[1..] else [[s[0]]] + rest
  }

  /** Leading whitespace separates no words. */
  lemma {:induction false} WordsLStrip(s: string)
    ensures Words(LStrip(s)) == Words(s)
    decreases |s|
  {
    if s != [] && IsSpace(s[0]) {
      WordsLStrip(s[1..]);
    }
  }

  /** Trailing whitespace separates no words. */
  lemma {:induction false} WordsSpaceSnoc(s: string, c: char)
    requires IsSpace(c)
    ensures Words(s + [c]) == Words(s)
    decreases |s|
  {
    var t := s + [c];
    if s == [] {
      assert Words(t) == Words(t[1..]) && t[1..] == [];
    } else {
      assert t[0] == s[0] && t[1..] == s[1..] + [c];
      WordsSpaceSnoc(s[1..], c);
      if |s| > 1 {
        assert t[1] == s[1];
      }
    }
  }

  lemma {:induction false} WordsRStrip(s: string)
    ensures Words(RStrip(s)) == Words(s)
    decreases |s|
  {
    if s != [] && IsSpace(s[|s| - 1]) {
      var init := s[..|s| - 1];
      assert s == init + [s[|s| - 1]];
      WordsSpaceSnoc(init, s[|s| - 1]);
      WordsRStrip(init);
    }
  }

  /** Collapsing whitespace runs keeps the words, and never joins or splits one. */
  lemma {:induction false} CollapseKeepsWords(s: string)
    ensures Words(CollapseSpaces(s)) == Words(s)
    decreases |s|
  {
    if s != [] {
      if IsSpace(s[0]) {
        var t := CollapseSpaces(LStrip(s[1..]));
        CollapseKeepsWords(LStrip(s[1..]));
        WordsLStrip(s[1..]);
        assert (" " + t)[1..] == t;
      } else {
        var t := CollapseSpaces(s[1..]);
        CollapseKeepsWords(s[1..]);
        assert ([s[0]] + t)[1..] == t;
      }
    }
  }

  /** Joining a word onto the front of the first of several words. */
  lemma JoinExtendFirst(sep: string, a: string, ws: seq<string>)
    requires ws != []
    ensures Join(sep, [a + ws[0]] + ws[1..]) == a + Join(sep, ws)
  {
    var xs := [a + ws[0]] + ws[1..];
    if |ws| > 1 {
      assert xs[1..] == ws[1..];
    }
  }

  /** A cleaned string is its words joined by single spaces. */
  lemma {:induction false} CleanedIsJoin(t: string)
    requires Collapsed(t) && (t == [] || (!IsSpace(t[0]) && !IsSpace(t[|t| - 1])))
    ensures t == Join(" ", Words(t))
    decreases |t|
  {
    if |t| > 1 {
      CollapsedInfix(t, 1, |t|);
      var u := t[1..];
      if !IsSpace(t[1]) {
        CleanedIsJoin(u);
        JoinExtendFirst(" ", [t[0]], Words(u));
        assert t == [t[0]] + u;
      } else {
        assert t[1] == ' ' && !IsSpace(t[2]);
        CollapsedInfix(t, 2, |t|);
        var w := t[2..];
        CleanedIsJoin(w);
        assert u[1..] == w;
        var ws := Words(w);
        assert Words(t) == [[t[0]]] + ws;
        assert ([[t[0]]] + ws)[1..] == ws;
        assert t == [t[0]] + " " + w;
      }
    }
  }

  lemma {:induction false} CollapseOfCollapsed(s: string)
    requires Collapsed(s)
    ensures CollapseSpaces(s) == s
    decreases |s|
  {
    if s != [] {
      assert Collapsed(s[1..]) by {
        forall i | 0 <= i < |s[1..]| && IsSpace(s[1..][i])
          ensures s[1..][i] == ' ' && (i + 1 < |s[1..]| ==> !IsSpace(s[1..][i + 1]))
        {
          assert s[1..][i] == s[i + 1];
        }
      }
      CollapseOfCollapsed(s[1..]);
    }
  }

  lemma {:induction false} CollapsedInfix(s: string, a: nat, b: nat)
    requires a <= b <= |s| && Collapsed(s)
    ensures Collapsed(s[a..b])
  {
    var t := s[a..b];
    forall i | 0 <= i < |t| && IsSpace(t[i])
      ensures t[i] == ' ' && (i + 1 < |t| ==> !IsSpace(t[i + 1]))
    {
      assert t[i] == s[a + i];
      if i + 1 < |t| {
        assert t[i + 1] == s[a + i + 1];
      }
    }
  }

  lemma {:induction false} StripKeepsCollapsed(s: string)
    requires Collapsed(s)
    ensures Collapsed(Strip(s))
  {
    var l := LStrip(s);
    CollapsedInfix(s, |s| - |l|, |s|);
    var r := RStrip(l);
    CollapsedInfix(l, 0, |r|);
  }

  /** `clean_string(s)`: falsy input gives `''`; otherwise whitespace runs become one space and the ends are trimmed. */
  function CleanString(v: Value): (r: string)
    ensures !Truthy(v) ==> r == ""
    ensures r == [] || (!IsSpace(r[0]) && !IsSpace(r[|r| - 1]))
    ensures Collapsed(r)
    ensures NonSpace(r) == (if Truthy(v) then NonSpace(Show(v)) else [])
  {
    if !Truthy(v) then ""
    else
      var c := CollapseSpaces(Show(v));
      StripKeepsCollapsed(c);
      CollapseKeepsText(Show(v));
      NonSpaceStrip(c);
      Strip(c)
  }

  /** Cleaning a cleaned string changes nothing. */
  lemma {:induction false} CleanStringIdempotent(v: Value)
    ensures CleanString(Str(CleanString(v))) == CleanString(v)
  {
    var r := CleanString(v);
    if r != "" {
      assert Show(Str(r)) == r;
      CollapseOfCollapsed(r);
      assert CollapseSpaces(r) == r;
      StripNoEdgeSpace(r);
    }
  }

  /** `clean_string` keeps the words of its input: each whitespace run between two words becomes one
      space, and the whitespace at either end goes. */
  lemma CleanStringWords(v: Value)
    requires Truthy(v)
    ensures Words(CleanString(v)) == Words(Show(v))
    ensures CleanString(v) == Join(" ", Words(Show(v)))
  {
    var c := CollapseSpaces(Show(v));
    CollapseKeepsWords(Show(v));
    WordsLStrip(c);
    WordsRStrip(LStrip(c));
    CleanedIsJoin(CleanString(v));
  }

  // ---------------------------------------------------------------- truncate_string

  /** Python's `s[:k]`, where a negative `k` counts from the end. */
  function PyPrefix(s: string, k: int): (r: string)
    ensures r <= s
  {
    if k >= 0 then (if k <= |s| then s[..k] else s)
    else if |s| + k >= 0 then s[..|s| + k]
    else []
  }

  /** `truncate_string(s, max_length, suffix)`; `None` is `Option.None`. */
  function TruncateString(s: Option<string>, maxLength: int, suffix: string): (r: string)
    ensures s.None? || s == Some("") ==> r == ""
    ensures s.Some? && |s.value| <= maxLength ==> r == s.value
    ensures s.Some? && |s.value| > maxLength >= |suffix| ==>
      |r| == maxLength && r[..maxLength - |suffix|] <= s.value && r[maxLength - |suffix|..] == suffix
    ensures s.Some? && s.value != "" && |s.value| > maxLength ==> r == PyPrefix(s.value, maxLength - |suffix|) + suffix
  {
    if s.None? || s.value == "" || |s.value| <= maxLength then
      (if s.None? then "" else s.value)
    else
      PyPrefix(s.value, maxLength - |suffix|) + suffix
  }

  // ---------------------------------------------------------------- generate_record_id

  /** `str(f).lower().strip()` for `f = record.get(field, '')`. */
  function KeyPart(record: Dict, field: string): string {
    Strip(Lower(Show(Get(record, field, Str("")))))
  }

  /** The normalised licence number, name, address, city and country, in the order
      `generate_record_id` joins them. */
  function KeyParts(record: Dict): (parts: seq<string>)
    ensures |parts| == 5
  {
    [KeyPart(record, "license_number"), KeyPart(record, "name"), KeyPart(record, "address"),
     KeyPart(record, "city"), KeyPart(record, "country")]
  }

  /** The string that `generate_record_id` hashes. */
  function RecordKey(record: Dict): string {
    Join("|", KeyParts(record))
  }

  /** `generate_record_id`: the first 16 hex digits of the MD5 of the key; the digest is abstract. */
  function RecordId(record: Dict, md5Prefix: string -> string): string {
    md5Prefix(RecordKey(record))
  }

  /** Records that agree on the five key fields (after lower/strip) get the same id. */
  lemma SameKeyFieldsSameId(r1: Dict, r2: Dict, md5Prefix: string -> string)
    requires KeyParts(r1) == KeyParts(r2)
    ensures RecordId(r1, md5Prefix) == RecordId(r2, md5Prefix)
  {
  }

  predicate NoBar(s: string) { forall i :: 0 <= i < |s| ==> s[i] != '|' }

  /** The position of the first `|` in `s`, or `|s|`. */
  function FirstBar(s: string): (n: nat)
    ensures n <= |s|
  {
    if s == [] || s[0] == '|' then 0 else 1 + FirstBar(s[1..])
  }

  lemma {:induction false} FirstBarAfter(a: string, x: string)
    requires NoBar(a)
    ensures FirstBar(a + "|" + x) == |a|
  {
    if a != [] {
      assert (a + "|" + x)[1..] == a[1..] + "|" + x;
      FirstBarAfter(a[1..], x);
    }
  }

  lemma {:induction false} BarSplit(a: string, x: string, b: string, y: string)
    requires NoBar(a) && NoBar(b) && a + "|" + x == b + "|" + y
    ensures a == b && x == y
  {
    FirstBarAfter(a, x);
    FirstBarAfter(b, y);
    assert a == (a + "|" + x)[..|a|];
    assert b == (b + "|" + y)[..|b|];
    assert x == (a + "|" + x)[|a| + 1..];
    assert y == (b + "|" + y)[|b| + 1..];
  }

  predicate BarFree(parts: seq<string>) {
    forall k :: 0 <= k < |parts| ==> NoBar(parts[k])
  }

  /** The key tells records apart: when no key field contains `|`, equal keys mean equal key fields. */
  lemma {:induction false} JoinBarInjective(p: seq<string>, q: seq<string>)
    requires |p| == |q|
    requires BarFree(p) && BarFree(q)
    requires Join("|", p) == Join("|", q)
    ensures p == q
  {
    if |p| > 1 {
      BarSplit(p[0], Join("|", p[1..]), q[0], Join("|", q[1..]));
      JoinBarInjective(p[1..], q[1..]);
      assert p == [p[0]] + p[1..] && q == [q[0]] + q[1..];
    }
  }

  // ---------------------------------------------------------------- format_date

  /** The input formats `format_date` tries, in order. */
  const InputDateFormats: seq<string> :=
    ["%Y-%m-%d", "%Y/%m/%d", "%d/%m/%Y", "%m/%d/%Y", "%Y-%m-%d %H:%M:%S", "%Y%m%d"]

  /** The position of the first format in `formats` under which `parse` accepts `s`. */
  function FirstParsing(s: string, formats: seq<string>, parse: (string, string) -> Option<string>): (r: Option<nat>)
    ensures r.Some? ==> r.value < |formats| && parse(s, formats[r.value]).Some?
    ensures r.Some? ==> forall j :: 0 <= j < r.value ==> parse(s, formats[j]).None?
    ensures r.None? <==> forall k :: 0 <= k < |formats| ==> parse(s, formats[k]).None?
  {
    if formats == [] then None
    else if parse(s, formats[0]).Some? then Some(0)
    else
      match FirstParsing(s, formats[1..], parse)
      case Some(k) => Some(k + 1)
      case None => None
  }

  /** What `format_date(date_input)` returns, `parse(s, fmt)` standing for strptime followed by strftime('%Y-%m-%d'). */
  function FormattedDate(input: Value, parse: (string, string) -> Option<string>): (r: string)
    ensures input.Null? ==> r == ""
    ensures input.Int? ==> r == Show(input)
    ensures input.Str? ==> match FirstParsing(Strip(input.s), InputDateFormats, parse)
      case None => r == input.s
      case Some(k) => Some(r) == parse(Strip(input.s), InputDateFormats[k])
  {
    match input
    case Null => ""
    case Int(_) => Show(input)
    case Str(s) =>
      match FirstParsing(Strip(s), InputDateFormats, parse)
      case Some(k) => parse(Strip(s), InputDateFormats[k]).value
      case None => s
  }

  /** A format that parses after formats that all fail is the first that parses. */
  lemma {:induction false} FirstParsingAt(s: string, formats: seq<string>, parse: (string, string) -> Option<string>, k: nat)
    requires k < |formats| && parse(s, formats[k]).Some?
    requires forall j :: 0 <= j < k ==> parse(s, formats[j]).None?
    ensures FirstParsing(s, formats, parse) == Some(k)
  {
    if k > 0 {
      assert parse(s, formats[0]).None?;
      assert forall j :: 0 <= j < k - 1 ==> formats[1..][j] == formats[j + 1];
      FirstParsingAt(s, formats[1..], parse, k - 1);
    }
  }

  /** The first formats loop of `format_date`: tries each format in turn and stops at the first
      that parses `s`. */
  method TryFormats(s: string, formats: seq<string>, parse: (string, string) -> Option<string>) returns (out: Option<string>)
    ensures out.Some? <==> FirstParsing(s, formats, parse).Some?
    ensures out.Some? ==> out == parse(s, formats[FirstParsing(s, formats, parse).value])
  {
    var k := 0;
    while k < |formats|
      invariant 0 <= k <= |formats|
      invariant forall j :: 0 <= j < k ==> parse(s, formats[j]).None?
    {
      out := parse(s, formats[k]);
      if out.Some? {
        FirstParsingAt(s, formats, parse, k);
        return;
      }
      k := k + 1;
    }
    return None;
  }

  /** `format_date`: tries each input format in turn and returns at the first that parses. */
  method FormatDate(input: Value, parse: (string, string) -> Option<string>) returns (r: string)
    ensures r == FormattedDate(input, parse)
  {
    if input.Null? {
      return "";
    }
    if input.Str? {
      var out := TryFormats(Strip(input.s), InputDateFormats, parse);
      if out.Some? {
        return out.value;
      }
    }
    r := Show(input);
  }

  // ---------------------------------------------------------------- extract_postal_code

  predicate DigitLetterDigit(a: string, p: nat)
    requires p + 3 <= |a|
  {
    IsDigit(a[p]) && IsUpper(a[p + 1]) && IsDigit(a[p + 2])
  }

  /** Length of the match of `[A-Z]\d[A-Z]\s?\d[A-Z]\d` starting at `p`, if any (the optional `\s` is greedy). */
  function CanadaMatchAt(a: string, p: nat): (len: nat)
    ensures len == 0 || len == 6 || len == 7
    ensures len > 0 ==> p + len <= |a| && IsUpper(a[p]) && IsDigit(a[p + 1]) && IsUpper(a[p + 2])
    ensures len == 6 ==> DigitLetterDigit(a, p + 3)
    ensures len == 7 ==> IsSpace(a[p + 3]) && DigitLetterDigit(a, p + 4)
  {
    if p + 6 <= |a| && IsUpper(a[p]) && IsDigit(a[p + 1]) && IsUpper(a[p + 2]) then
      if p + 7 <= |a| && IsSpace(a[p + 3]) && DigitLetterDigit(a, p + 4) then 7
      else if DigitLetterDigit(a, p + 3) then 6
      else 0
    else 0
  }

  /** `re.search`: the leftmost position at or after `p` where the Canadian pattern matches. */
  function FirstCanadaMatch(a: string, p: nat): (r: Option<nat>)
    ensures r.Some? ==> p <= r.value && CanadaMatchAt(a, r.value) > 0
    ensures r.Some? ==> forall q :: p <= q < r.value ==> CanadaMatchAt(a, q) == 0
    ensures r.None? ==> forall q :: p <= q ==> CanadaMatchAt(a, q) == 0
    decreases |a| - p
  {
    if p + 6 > |a| then None
    else if CanadaMatchAt(a, p) > 0 then Some(p)
    else FirstCanadaMatch(a, p + 1)
  }

  /** `s.replace(' ', '')` */
  function RemoveSpaceChars(s: string): (r: string)
    ensures forall i :: 0 <= i < |r| ==> r[i] != ' '
    ensures |r| <= |s|
  {
    if s == [] then [] else (if s[0] == ' ' then [] else [s[0]]) + RemoveSpaceChars(s[1..])
  }

  /** `\b\d{4}\b` matches at `p`: four digits with no word character on either side. */
  predicate AustraliaMatchAt(a: string, p: nat) {
    && p + 4 <= |a|
    && IsDigit(a[p]) && IsDigit(a[p + 1]) && IsDigit(a[p + 2]) && IsDigit(a[p + 3])
    && (p == 0 || !IsWordChar(a[p - 1]))
    && (p + 4 == |a| || !IsWordChar(a[p + 4]))
  }

  /** Two word-bounded four-digit runs never overlap, so `re.findall` finds every match position. */
  lemma AustraliaMatchesDisjoint(a: string, p: nat, q: nat)
    requires AustraliaMatchAt(a, p) && AustraliaMatchAt(a, q) && p < q
    ensures p + 4 <= q
  {
  }

  /** The last match position below `n` (searched from the end). */
  function LastAustraliaMatch(a: string, n: nat): (r: Option<nat>)
    ensures r.Some? ==> r.value < n && AustraliaMatchAt(a, r.value)
    ensures r.Some? ==> forall q :: r.value < q < n ==> !AustraliaMatchAt(a, q)
    ensures r.None? ==> forall q: nat :: q < n ==> !AustraliaMatchAt(a, q)
  {
    if n == 0 then None
    else if AustraliaMatchAt(a, n - 1) then Some(n - 1)
    else LastAustraliaMatch(a, n - 1)
  }

  /** `country.lower() in ['canada', 'ca', '🇨🇦']` */
  predicate IsCanadaName(country: string) {
    var k := Lower(country);
    k == "canada" || k == "ca" || k == "🇨🇦"
  }

  /** `country.lower() in ['australia', 'au', '🇦🇺']` */
  predicate IsAustraliaName(country: string) {
    var k := Lower(country);
    k == "australia" || k == "au" || k == "🇦🇺"
  }

  lemma {:induction false} RemoveSpaceCharsAppend(a: string, b: string)
    ensures RemoveSpaceChars(a + b) == RemoveSpaceChars(a) + RemoveSpaceChars(b)
  {
    if a == [] {
      assert a + b == b;
    } else {
      assert (a + b)[1..] == a[1..] + b;
      RemoveSpaceCharsAppend(a[1..], b);
    }
  }

  lemma {:induction false} RemoveSpaceCharsNone(s: string)
    requires forall i :: 0 <= i < |s| ==> s[i] != ' '
    ensures RemoveSpaceChars(s) == s
  {
    if s != [] {
      RemoveSpaceCharsNone(s[1..]);
    }
  }

  /** `A1A1A1`, or `A1A` + one whitespace character other than a space + `1A1`. */
  predicate CanadaCodeShaped(r: string) {
    && (|r| == 6 || (|r| == 7 && IsSpace(r[3]) && r[3] != ' '))
    && IsUpper(r[0]) && IsDigit(r[1]) && IsUpper(r[2])
    && IsDigit(r[|r| - 3]) && IsUpper(r[|r| - 2]) && IsDigit(r[|r| - 1])
  }

  /** One character goes through the space removal unless it is a space. */
  lemma RemoveSpaceCharsOne(c: char)
    ensures RemoveSpaceChars([c]) == if c == ' ' then [] else [c]
  {
    assert [c][1..] == [];
  }

  /** The matched code with its spaces removed: the three leading and the three trailing characters
      are kept, and so is a middle separator other than a space. */
  lemma CanadaMatchShape(a: string, p: nat)
    requires CanadaMatchAt(a, p) > 0
    ensures CanadaCodeShaped(RemoveSpaceChars(a[p..p + CanadaMatchAt(a, p)]))
  {
    var len := CanadaMatchAt(a, p);
    var m := a[p..p + len];
    var head, tail := m[..3], m[len - 3..];
    assert head == [a[p], a[p + 1], a[p + 2]];
    assert tail == [a[p + len - 3], a[p + len - 2], a[p + len - 1]];
    RemoveSpaceCharsNone(head);
    RemoveSpaceCharsNone(tail);
    if len == 7 {
      var mid := RemoveSpaceChars([m[3]]);
      RemoveSpaceCharsOne(m[3]);
      assert m == (head + [m[3]]) + tail;
      RemoveSpaceCharsAppend(head + [m[3]], tail);
      RemoveSpaceCharsAppend(head, [m[3]]);
      assert RemoveSpaceChars(m) == head + mid + tail;
    } else {
      assert m == head + tail;
      RemoveSpaceCharsAppend(head, tail);
    }
  }

  /** `re.search(r'[A-Z]\d[A-Z]\s?\d[A-Z]\d', a)` with the spaces of the match removed. A code
      written `A1A1A1` or `A1A 1A1` comes out as the six characters `A1A1A1`; with another
      whitespace separator (tab, newline) the separator is kept and the code has seven. */
  function CanadaCode(a: string): (r: Option<string>)
    ensures r.None? <==> FirstCanadaMatch(a, 0).None?
    ensures r.Some? ==> CanadaCodeShaped(r.value)
    ensures r.Some? ==> var p := FirstCanadaMatch(a, 0).value;
      r.value == RemoveSpaceChars(a[p..p + CanadaMatchAt(a, p)])
  {
    match FirstCanadaMatch(a, 0)
    case Some(p) =>
      CanadaMatchShape(a, p);
      Some(RemoveSpaceChars(a[p..p + CanadaMatchAt(a, p)]))
    case None => None
  }

  /** `re.findall(r'\b\d{4}\b', a)[-1]`, `None` when nothing matches: the last whole-word run of
      four digits. */
  function AustraliaCode(a: string): (r: Option<string>)
    ensures r.None? <==> LastAustraliaMatch(a, |a|).None?
    ensures r.Some? ==> |r.value| == 4 && forall i :: 0 <= i < 4 ==> IsDigit(r.value[i])
    ensures r.Some? ==> var p := LastAustraliaMatch(a, |a|).value; r.value == a[p..p + 4]
  {
    match LastAustraliaMatch(a, |a|)
    case Some(p) => Some(a[p..p + 4])
    case None => None
  }

  /** `extract_postal_code(address, country)`: the address is printed and upper-cased, then
      searched with the pattern of the country; any other country gives `None`. */
  function ExtractPostalCode(address: Value, country: string): (r: Option<string>)
    ensures !Truthy(address) ==> r.None?
    ensures !IsCanadaName(country) && !IsAustraliaName(country) ==> r.None?
    ensures Truthy(address) && IsCanadaName(country) ==> r == CanadaCode(Upper(Show(address)))
    ensures Truthy(address) && !IsCanadaName(country) && IsAustraliaName(country) ==> r == AustraliaCode(Upper(Show(address)))
  {
    if !Truthy(address) then None
    else
      var a := Upper(Show(address));
      if IsCanadaName(country) then CanadaCode(a)
      else if IsAustraliaName(country) then AustraliaCode(a)
      else None
  }

  // ---------------------------------------------------------------- priority emoji and colour

  /** `get_priority_emoji`: looked up by the lower-cased name, `📋` for anything unknown. */
  function PriorityEmoji(priority: string): (r: string)
    ensures Lower(priority) !in ["critical", "high", "medium"] ==> r == "📋"
  {
    var p := Lower(priority);
    if p == "critical" then "🚨"
    else if p == "high" then "🔥"
    else if p == "medium" then "📌"
    else "📋"
  }

  /** `get_priority_color`: looked up by the lower-cased name, `#9E9E9E` for anything unknown. */
  function PriorityColor(priority: string): (r: string)
    ensures Lower(priority) !in ["critical", "high", "medium", "low"] ==> r == "#9E9E9E"
    ensures |r| == 7 && r[0] == '#'
  {
    var p := Lower(priority);
    if p == "critical" then "#FF0000"
    else if p == "high" then "#FF5722"
    else if p == "medium" then "#FF9800"
    else if p == "low" then "#4CAF50"
    else "#9E9E9E"
  }

  /** Both lookups ignore case: names that lower-case alike get the same emoji and colour. */
  lemma PriorityLookupsIgnoreCase(p: string, q: string)
    requires Lower(p) == Lower(q)
    ensures PriorityEmoji(p) == PriorityEmoji(q) && PriorityColor(p) == PriorityColor(q)
  {
  }

  /** The four tiers get four different colours, none of them the default. */
  lemma PriorityColorsDistinct()
    ensures |{PriorityColor("Critical"), PriorityColor("High"), PriorityColor("Medium"), PriorityColor("Low"), "#9E9E9E"}| == 5
  {
    assert Lower("Critical") == "critical";
    assert Lower("High") == "high";
    assert Lower("Medium") == "medium";
    assert Lower("Low") == "low";
  }

  // ---------------------------------------------------------------- chunks

  /** `list(chunks(lst, n))`; `None` when `range` raises because the step is 0. A negative step yields nothing. */
  method Chunks<T>(lst: seq<T>, n: int) returns (r: Option<seq<seq<T>>>)
    ensures n == 0 <==> r.None?
    ensures n < 0 ==> r == Some([])
    ensures n > 0 ==> r.Some? && Flatten(r.value) == lst
    ensures n > 0 ==> r.Some? && forall k :: 0 <= k < |r.value| ==> 0 < |r.value[k]| <= n
    ensures n > 0 ==> r.Some? && forall k :: 0 <= k < |r.value| - 1 ==> |r.value[k]| == n
  {
    if n == 0 {
      return None;
    }
    if n < 0 {
      return Some([]);
    }
    var out: seq<seq<T>> := [];
    var i := 0;
    while i < |lst|
      invariant 0 <= i <= |lst|
      invariant Flatten(out) == lst[..i]
      invariant forall k :: 0 <= k < |out| ==> 0 < |out[k]| <= n
      invariant forall k :: 0 <= k < |out| - 1 ==> |out[k]| == n
      invariant i < |lst| ==> forall k :: 0 <= k < |out| ==> |out[k]| == n
      decreases |lst| - i
    {
      var chunk := if i + n <= |lst| then lst[i..i + n] else lst[i..];
      FlattenSnoc(out, chunk);
      assert lst[..i] + chunk == lst[..i + |chunk|];
      out := out + [chunk];
      i := i + |chunk|;
    }
    assert lst[..i] == lst;
    return Some(out);
  }

  // ---------------------------------------------------------------- safe_get

  /** A nested dictionary: a leaf value, or a dict of further values. */
  datatype Tree = Leaf(v: Value) | Node(children: map<string, Tree>)

  /** The value at `keys` below `t`, or `None` as soon as a step is not a dict, misses, or meets `None`. */
  function Lookup(t: Tree, keys: seq<string>): Option<Tree>
    decreases |keys|
  {
    if keys == [] then Some(t)
    else if t.Node? && keys[0] in t.children && t.children[keys[0]] != Leaf(Null) then
      Lookup(t.children[keys[0]], keys[1..])
    else None
  }

  /** A path lookup is a lookup of the first part followed by a lookup of the rest. */
  lemma {:induction false} LookupAppend(t: Tree, a: seq<string>, b: seq<string>)
    ensures Lookup(t, a + b) == (match Lookup(t, a) case None => None case Some(u) => Lookup(u, b))
    decreases |a|
  {
    if a == [] {
      assert a + b == b;
    } else {
      assert (a + b)[0] == a[0] && (a + b)[1..] == a[1..] + b;
      if t.Node? && a[0] in t.children && t.children[a[0]] != Leaf(Null) {
        LookupAppend(t.children[a[0]], a[1..], b);
      }
    }
  }

  /** `safe_get(d, *keys, default=default)`. */
  method SafeGet(d: map<string, Tree>, keys: seq<string>, default: Tree) returns (r: Tree)
    ensures keys == [] ==> r == Node(d)
    ensures r == (match Lookup(Node(d), keys) case Some(u) => u case None => default)
  {
    var result := Node(d);
    var i := 0;
    while i < |keys|
      invariant 0 <= i <= |keys|
      invariant Lookup(Node(d), keys[..i]) == Some(result)
    {
      LookupAppend(Node(d), keys[..i], [keys[i]]);
      assert keys[..i] + [keys[i]] == keys[..i + 1];
      LookupAppend(Node(d), keys[..i], keys[i..]);
      assert keys[..i] + keys[i..] == keys;
      if !result.Node? {
        return default;
      }
      if keys[i] !in result.children || result.children[keys[i]] == Leaf(Null) {
        assert Lookup(result, keys[i..]) == None;
        return default;
      }
      result := result.children[keys[i]];
      i := i + 1;
    }
    assert keys[..i] == keys;
    r := result;
  }
}
