/** The data validator: required-field, capacity, date and country checks, and the field cleaners. */
module Validators {
  import opened Text
  import opened Values
  import opened Seqs

  // ---------------------------------------------------------------- country and province

  /** The lower-cased spellings `normalize_country` reads as Canada. */
  predicate IsCanadaName(k: string) {
    k == "canada" || k == "ca" || k == "can" || k == "🇨🇦"
  }

  /** The lower-cased spellings `normalize_country` reads as Australia. */
  predicate IsAustraliaName(k: string) {
    k == "australia" || k == "au" || k == "aus" || k == "🇦🇺"
  }

  const CanadaLabel: string := "🇨🇦 Canada"
  const AustraliaLabel: string := "🇦🇺 Australia"

  /** Python raises when it calls a string method on a truthy non-string. */
  predicate TextLike(v: Value) {
    !Truthy(v) || v.Str?
  }

  /** `normalize_country(country)`. */
  function NormalizeCountry(country: Value): (r: string)
    requires TextLike(country)
    ensures !Truthy(country) ==> r == ""
    ensures Truthy(country) && IsCanadaName(Lower(Strip(country.s))) ==> r == CanadaLabel
    ensures Truthy(country) && IsAustraliaName(Lower(Strip(country.s))) ==> r == AustraliaLabel
    ensures Truthy(country) && !IsCanadaName(Lower(Strip(country.s))) && !IsAustraliaName(Lower(Strip(country.s))) ==>
      r == country.s
  {
    if !Truthy(country) then ""
    else
      var key := Lower(Strip(country.s));
      if IsCanadaName(key) then CanadaLabel
      else if IsAustraliaName(key) then AustraliaLabel
      else country.s
  }

  /** The two labels are fixed points: they are not themselves country variants. */
  lemma LabelsAreNotVariants()
    ensures !IsCanadaName(Lower(Strip(CanadaLabel))) && !IsAustraliaName(Lower(Strip(CanadaLabel)))
    ensures !IsCanadaName(Lower(Strip(AustraliaLabel))) && !IsAustraliaName(Lower(Strip(AustraliaLabel)))
  {
    CanadaLabelNotVariant();
    AustraliaLabelNotVariant();
  }

  lemma CanadaLabelNotVariant()
    ensures !IsCanadaName(Lower(Strip(CanadaLabel))) && !IsAustraliaName(Lower(Strip(CanadaLabel)))
  {
    LabelNotVariant(CanadaLabel, '\U{1F1E8}');
  }

  lemma AustraliaLabelNotVariant()
    ensures !IsCanadaName(Lower(Strip(AustraliaLabel))) && !IsAustraliaName(Lower(Strip(AustraliaLabel)))
  {
    LabelNotVariant(AustraliaLabel, '\U{1F1E6}');
  }

  /** A label starts with its flag, so it is longer than any flag alone and does not start like a name. */
  lemma LabelNotVariant(text: string, flag: char)
    requires |text| >= 9 && text[0] == flag && (flag == '\U{1F1E8}' || flag == '\U{1F1E6}')
    requires !IsSpace(text[|text| - 1])
    ensures !IsCanadaName(Lower(Strip(text))) && !IsAustraliaName(Lower(Strip(text)))
  {
    StripNoEdgeSpace(text);
    FlagPrefixedNotName(Lower(text));
  }

  lemma FlagPrefixedNotName(k: string)
    requires |k| >= 9 && (k[0] == '\U{1F1E8}' || k[0] == '\U{1F1E6}')
    ensures !IsCanadaName(k) && !IsAustraliaName(k)
  {
  }

  /** Normalising a normalised country changes nothing. */
  lemma NormalizeCountryIdempotent(country: Value)
    requires TextLike(country)
    ensures NormalizeCountry(Str(NormalizeCountry(country))) == NormalizeCountry(country)
  {
    LabelsAreNotVariants();
  }

  /** The lower-cased country names under which `normalize_province` and `is_major_city` use the
      Canadian tables. */
  predicate IsCanadaToken(c: string) {
    c == "canada" || c == "ca" || c == "🇨🇦"
  }

  /** The lower-cased country names under which they use the Australian tables. */
  predicate IsAustraliaToken(c: string) {
    c == "australia" || c == "au" || c == "🇦🇺"
  }

  /** `CANADA_PROVINCES.get(key)`: the full name of a province code or lower-cased name. */
  function CanadaProvince(key: string): Option<string>
  {
    if key == "on" || key == "ontario" then Some("Ontario")
    else if key == "bc" || key == "british columbia" then Some("British Columbia")
    else if key == "ab" || key == "alberta" then Some("Alberta")
    else if key == "qc" || key == "quebec" then Some("Quebec")
    else if key == "mb" || key == "manitoba" then Some("Manitoba")
    else if key == "sk" || key == "saskatchewan" then Some("Saskatchewan")
    else if key == "ns" || key == "nova scotia" then Some("Nova Scotia")
    else if key == "nb" || key == "new brunswick" then Some("New Brunswick")
    else if key == "nl" || key == "newfoundland" then Some("Newfoundland and Labrador")
    else if key == "pe" || key == "pei" then Some("Prince Edward Island")
    else if key == "nt" || key == "northwest territories" then Some("Northwest Territories")
    else if key == "yt" || key == "yukon" then Some("Yukon")
    else if key == "nu" || key == "nunavut" then Some("Nunavut")
    else None
  }

  /** `AUSTRALIA_STATES.get(key)`: the full name of a state code or lower-cased name. */
  function AustraliaState(key: string): Option<string>
  {
    if key == "nsw" || key == "new south wales" then Some("New South Wales")
    else if key == "vic" || key == "victoria" then Some("Victoria")
    else if key == "qld" || key == "queensland" then Some("Queensland")
    else if key == "wa" || key == "western australia" then Some("Western Australia")
    else if key == "sa" || key == "south australia" then Some("South Australia")
    else if key == "tas" || key == "tasmania" then Some("Tasmania")
    else if key == "act" || key == "australian capital territory" then Some("Australian Capital Territory")
    else if key == "nt" || key == "northern territory" then Some("Northern Territory")
    else None
  }

  /** `normalize_province(province, country)`: the table is chosen by the exact lower-cased country. */
  function NormalizeProvince(province: Value, country: Value): (r: string)
    requires !Truthy(province) || (province.Str? && country.Str?)
    ensures !Truthy(province) ==> r == ""
    ensures Truthy(province) && !IsCanadaToken(Lower(country.s)) && !IsAustraliaToken(Lower(country.s)) ==>
      r == Title(province.s)
  {
    if !Truthy(province) then ""
    else
      var key := Lower(Strip(province.s));
      var c := Lower(country.s);
      if IsCanadaToken(c) then
        (match CanadaProvince(key) case Some(full) => full case None => Title(province.s))
      else if IsAustraliaToken(c) then
        (match AustraliaState(key) case Some(full) => full case None => Title(province.s))
      else Title(province.s)
  }

  /** A known code under a Canadian country name gives the province's full name. */
  lemma ProvinceFromCanadaTable(province: string, country: string)
    requires province != "" && IsCanadaToken(Lower(country)) && CanadaProvince(Lower(Strip(province))).Some?
    ensures NormalizeProvince(Str(province), Str(country)) == CanadaProvince(Lower(Strip(province))).value
  {
  }

  /** A known code under an Australian country name gives the state's full name. */
  lemma ProvinceFromAustraliaTable(province: string, country: string)
    requires province != "" && IsAustraliaToken(Lower(country)) && AustraliaState(Lower(Strip(province))).Some?
    ensures NormalizeProvince(Str(province), Str(country)) == AustraliaState(Lower(Strip(province))).value
  {
  }

  /** A key missing from the table the country selects (or any key, when the country selects no table)
      falls back to `province.title()`, even when the other country's table has it. */
  lemma ProvinceFallback(province: string, country: string)
    requires province != ""
    requires IsCanadaToken(Lower(country)) ==> CanadaProvince(Lower(Strip(province))).None?
    requires !IsCanadaToken(Lower(country)) && IsAustraliaToken(Lower(country)) ==> AustraliaState(Lower(Strip(province))).None?
    ensures NormalizeProvince(Str(province), Str(country)) == Title(province)
  {
  }

  /** Province normalisation is not idempotent: `nl` becomes `Newfoundland and Labrador`, which is not a
      table key and is then title-cased, so its `and` becomes `And`. */
  lemma NormalizeProvinceNotIdempotent()
    ensures NormalizeProvince(Str("nl"), Str("Canada")) == "Newfoundland and Labrador"
    ensures NormalizeProvince(Str("Newfoundland and Labrador"), Str("Canada")) == Title("Newfoundland and Labrador")
    ensures Title("Newfoundland and Labrador") != "Newfoundland and Labrador"
  {
    CodeGivesFullName("nl", "Canada");
    FullNameRetitled("Newfoundland and Labrador", "Canada");
    TitleChangesFullName("Newfoundland and Labrador");
  }

  lemma CanadaLowered(c: string)
    requires c == "Canada"
    ensures IsCanadaToken(Lower(c))
  {
    assert Lower(c) == "canada";
  }

  lemma CodeGivesFullName(s: string, c: string)
    requires s == "nl" && c == "Canada"
    ensures NormalizeProvince(Str(s), Str(c)) == "Newfoundland and Labrador"
  {
    CanadaLowered(c);
    StripNoEdgeSpace(s);
    assert Lower(s) == "nl";
  }

  lemma FullNameRetitled(s: string, c: string)
    requires s == "Newfoundland and Labrador" && c == "Canada"
    ensures NormalizeProvince(Str(s), Str(c)) == Title(s)
  {
    FullNameNotCanadaKey(s);
    CanadaLowered(c);
  }

  lemma FullNameNotCanadaKey(s: string)
    requires s == "Newfoundland and Labrador"
    ensures CanadaProvince(Lower(Strip(s))).None?
  {
    StripNoEdgeSpace(s);
    assert |Lower(s)| == 25;
  }

  lemma TitleChangesFullName(s: string)
    requires s == "Newfoundland and Labrador"
    ensures Title(s) != s
  {
    assert s[12] == ' ' && s[13] == 'a';
    assert Title(s)[13] == 'A';
  }

  // ---------------------------------------------------------------- phone and email

  predicate IsDialChar(c: char) { IsDigit(c) || c == '+' }

  /** `re.sub(r'[^\d+]', '', s)`: the digits and plus signs of `s`, in order. */
  function DialChars(s: string): (r: string)
    ensures forall i :: 0 <= i < |r| ==> IsDialChar(r[i])
    ensures |r| <= |s|
  {
    if s == [] then [] else (if IsDialChar(s[0]) then [s[0]] else []) + DialChars(s[1..])
  }

  lemma {:induction false} DialCharsAppend(a: string, b: string)
    ensures DialChars(a + b) == DialChars(a) + DialChars(b)
  {
    if a == [] {
      assert a + b == b;
    } else {
      assert (a + b)[1..] == a[1..] + b;
      DialCharsAppend(a[1..], b);
    }
  }

  lemma {:induction false} DialCharsOfDial(s: string)
    requires forall i :: 0 <= i < |s| ==> IsDialChar(s[i])
    ensures DialChars(s) == s
  {
    if s != [] {
      DialCharsOfDial(s[1..]);
    }
  }

  /** The North American layout `(NNN) NNN-NNNN` of ten kept characters. */
  function PhoneLayout(c: string): (r: string)
    requires |c| == 10
    ensures |r| == 14 && r[0] == '(' && r[4..6] == ") " && r[9] == '-'
  {
    "(" + c[..3] + ") " + c[3..6] + "-" + c[6..]
  }

  /** `clean_phone(phone)`; the 11-digit layout `+1 (NNN) NNN-NNNN` is `+1 ` before the ten-digit layout. */
  function CleanPhone(phone: Value): (r: string)
    ensures !Truthy(phone) ==> r == ""
    ensures Truthy(phone) && |DialChars(Show(phone))| == 10 ==> |r| == 14 && r[0] == '(' && r[4..6] == ") " && r[9] == '-'
    ensures Truthy(phone) && |DialChars(Show(phone))| == 11 && DialChars(Show(phone))[0] == '1' ==>
      |r| == 17 && r[..4] == "+1 (" && r[7..9] == ") " && r[12] == '-'
    ensures Truthy(phone) && |DialChars(Show(phone))| != 10 && (|DialChars(Show(phone))| != 11 || DialChars(Show(phone))[0] != '1') ==>
      r == DialChars(Show(phone))
  {
    if !Truthy(phone) then ""
    else
      var c := DialChars(Show(phone));
      if |c| == 10 then PhoneLayout(c)
      else if |c| == 11 && c[0] == '1' then "+1 " + PhoneLayout(c[1..])
      else c
  }

  lemma TenDigitLayoutKeepsNumber(c: string)
    requires |c| == 10 && forall i :: 0 <= i < |c| ==> IsDialChar(c[i])
    ensures DialChars(PhoneLayout(c)) == c
  {
    var a, b, d := c[..3], c[3..6], c[6..];
    DialCharsOfDial(a);
    DialCharsOfDial(b);
    DialCharsOfDial(d);
    var p1 := "(" + a;
    DialCharsAppend("(", a);
    assert DialChars(p1) == a;
    var p2 := p1 + ") ";
    DialCharsAppend(p1, ") ");
    assert DialChars(p2) == a;
    var p3 := p2 + b;
    DialCharsAppend(p2, b);
    var p4 := p3 + "-";
    DialCharsAppend(p3, "-");
    assert DialChars(p4) == a + b;
    DialCharsAppend(p4, d);
    assert DialChars(p4 + d) == a + b + d;
    assert a + b + d == c;
  }

  lemma ElevenDigitLayoutKeepsNumber(c: string)
    requires |c| == 11 && c[0] == '1' && forall i :: 0 <= i < |c| ==> IsDialChar(c[i])
    ensures DialChars("+1 " + PhoneLayout(c[1..])) == "+" + c
  {
    TenDigitLayoutKeepsNumber(c[1..]);
    DialCharsAppend("+1 ", PhoneLayout(c[1..]));
    assert DialChars("+1 ") == "+1";
    assert c == [c[0]] + c[1..];
  }

  /** The formatting only adds punctuation: the dial characters of the result are the kept characters,
      except that the 11-digit form gains a leading `+`. */
  lemma CleanPhoneKeepsNumber(phone: Value)
    requires Truthy(phone)
    ensures var c := DialChars(Show(phone));
      DialChars(CleanPhone(phone)) == if |c| == 11 && c[0] == '1' then "+" + c else c
  {
    var c := DialChars(Show(phone));
    if |c| == 10 {
      TenDigitLayoutKeepsNumber(c);
    } else if |c| == 11 && c[0] == '1' {
      ElevenDigitLayoutKeepsNumber(c);
    } else {
      DialCharsOfDial(c);
    }
  }

  /** Ten-digit numbers are a fixed point of the cleaner. */
  lemma CleanPhoneTenDigitsIdempotent(phone: Value)
    requires Truthy(phone) && |DialChars(Show(phone))| == 10
    ensures CleanPhone(Str(CleanPhone(phone))) == CleanPhone(phone)
  {
    CleanPhoneKeepsNumber(phone);
  }

  /** The eleven-digit form is not a fixed point: its own `+` makes twelve kept characters, which are returned bare. */
  lemma CleanPhoneElevenDigitsNotIdempotent(digits: string)
    requires |digits| == 11 && digits[0] == '1' && AllDigits(digits)
    ensures var r := CleanPhone(Str(digits));
      CleanPhone(Str(r)) == "+" + digits && CleanPhone(Str(r)) != r
  {
    DialCharsOfDial(digits);
    CleanPhoneKeepsNumber(Str(digits));
  }

  predicate IsLocalChar(c: char) { IsLetter(c) || IsDigit(c) || c in "._%+-" }

  predicate IsDomainChar(c: char) { IsLetter(c) || IsDigit(c) || c in ".-" }

  /** `[a-zA-Z0-9.-]+\.[a-zA-Z]{2,}$` matches the whole of `d`. */
  predicate DomainShaped(d: string) {
    && (forall i :: 0 <= i < |d| ==> IsDomainChar(d[i]))
    && exists j :: 1 <= j && j + 3 <= |d| && d[j] == '.' && forall k :: j < k < |d| ==> IsLetter(d[k])
  }

  /** `re.match(r'^[a-zA-Z0-9._%+-]+@[a-zA-Z0-9.-]+\.[a-zA-Z]{2,}$', e)` for an `e` without a trailing newline. */
  predicate EmailShaped(e: string) {
    exists a :: 0 < a < |e| && e[a] == '@' && (forall i :: 0 <= i < a ==> IsLocalChar(e[i])) && DomainShaped(e[a + 1..])
  }

  /** `clean_email(email)`: the trimmed, lower-cased address when it has the expected shape, `''` otherwise. */
  function CleanEmail(email: Value): (r: string)
    ensures !Truthy(email) ==> r == ""
    ensures r == "" || (EmailShaped(r) && r == Lower(Strip(Show(email))))
    ensures Truthy(email) && EmailShaped(Lower(Strip(Show(email)))) ==> r == Lower(Strip(Show(email)))
  {
    if !Truthy(email) then ""
    else
      var e := Lower(Strip(Show(email)));
      if EmailShaped(e) then e else ""
  }

  /** A well-shaped address has no whitespace and exactly one `@`. */
  lemma EmailShapedChars(e: string)
    requires EmailShaped(e)
    ensures forall i :: 0 <= i < |e| ==> !IsSpace(e[i])
    ensures exists a :: 0 <= a < |e| && e[a] == '@' && forall i :: 0 <= i < |e| && i != a ==> e[i] != '@'
  {
    var a :| 0 < a < |e| && e[a] == '@' && (forall i :: 0 <= i < a ==> IsLocalChar(e[i])) && DomainShaped(e[a + 1..]);
    var d := e[a + 1..];
    forall i | 0 <= i < |e| && i != a
      ensures e[i] != '@' && !IsSpace(e[i])
    {
      if i > a {
        assert e[i] == d[i - a - 1] && IsDomainChar(d[i - a - 1]);
      }
    }
  }

  /** A cleaned address has no upper-case letters, no whitespace, and exactly one `@`. */
  lemma CleanEmailShape(email: Value)
    requires CleanEmail(email) != ""
    ensures var r := CleanEmail(email);
      && (forall i :: 0 <= i < |r| ==> !IsUpper(r[i]) && !IsSpace(r[i]))
      && exists a :: 0 <= a < |r| && r[a] == '@' && forall i :: 0 <= i < |r| && i != a ==> r[i] != '@'
  {
    EmailShapedChars(CleanEmail(email));
  }

  /** Cleaning a cleaned address changes nothing. */
  lemma CleanEmailIdempotent(email: Value)
    ensures CleanEmail(Str(CleanEmail(email))) == CleanEmail(email)
  {
    var r := CleanEmail(email);
    if r != "" {
      LowerStripFixedPoint(Show(email));
      assert Show(Str(r)) == r;
    }
  }

  // ---------------------------------------------------------------- capacity

  /** The first maximal run of digits in `s`, as a start and an end position. */
  function FirstDigitRun(s: string): (r: Option<(nat, nat)>)
    ensures r.None? <==> forall i :: 0 <= i < |s| ==> !IsDigit(s[i])
    ensures r.Some? ==> var (i, j) := r.value;
      && i < j <= |s|
      && (forall k :: 0 <= k < i ==> !IsDigit(s[k]))
      && AllDigits(s[i..j])
      && (j == |s| || !IsDigit(s[j]))
  {
    if s == [] then None
    else if IsDigit(s[0]) then Some((0, DigitRunEnd(s, 0)))
    else
      match FirstDigitRun(s[1..])
      case None => None
      case Some((i, j)) =>
        assert s[1..][i..j] == s[i + 1..j + 1];
        Some((i + 1, j + 1))
  }

  /** The end of the run of digits that starts at `p`. */
  function DigitRunEnd(s: string, p: nat): (j: nat)
    requires p <= |s|
    ensures p <= j <= |s| && AllDigits(s[p..j]) && (j == |s| || !IsDigit(s[j]))
    decreases |s| - p
  {
    if p < |s| && IsDigit(s[p]) then
      var j := DigitRunEnd(s, p + 1);
      assert s[p..j] == [s[p]] + s[p + 1..j];
      j
    else p
  }

  /** `clean_capacity(capacity)`: `None` and `''` give `None`, an integer is kept,
      a string gives the value of its first digit run. */
  function CleanCapacity(capacity: Value): (r: Option<int>)
    ensures capacity.Null? || capacity == Str("") ==> r.None?
    ensures capacity.Int? ==> r == Some(capacity.i)
    ensures capacity.Str? ==> (r.None? <==> forall i :: 0 <= i < |capacity.s| ==> !IsDigit(capacity.s[i]))
    ensures capacity.Str? && r.Some? ==> r.value >= 0
  {
    match capacity
    case Null => None
    case Int(i) => Some(i)
    case Str(s) =>
      match FirstDigitRun(s)
      case None => None
      case Some((i, j)) => Some(DigitsToNat(s[i..j]))
  }

  /** A count written in decimal is read back as that count, whatever text follows a non-digit. */
  lemma CleanCapacityReadsNumber(n: nat, rest: string)
    requires rest == [] || !IsDigit(rest[0])
    ensures CleanCapacity(Str(NatToDecimal(n) + rest)) == Some(n)
  {
    var d := NatToDecimal(n);
    var s := d + rest;
    var j := DigitRunEnd(s, 0);
    assert forall k :: 0 <= k < |d| ==> s[k] == d[k];
    DigitRunEndAt(s, 0, |d|);
    assert s[0..|d|] == d;
    DecimalRoundTrip(n);
  }

  lemma {:induction false} DigitRunEndAt(s: string, p: nat, e: nat)
    requires p <= e <= |s| && AllDigits(s[p..e]) && (e == |s| || !IsDigit(s[e]))
    ensures DigitRunEnd(s, p) == e
    decreases e - p
  {
    if p < e {
      assert s[p] == s[p..e][0];
      assert s[p + 1..e] == s[p..e][1..];
      DigitRunEndAt(s, p + 1, e);
    }
  }

  // ---------------------------------------------------------------- major cities

  /** `CANADA_MAJOR_CITIES`: the lower-cased Canadian cities `is_major_city` knows. */
  predicate IsCanadaMajorCity(c: string) {
    c == "toronto" || c == "vancouver" || c == "montreal" || c == "calgary"
    || c == "edmonton" || c == "ottawa" || c == "winnipeg" || c == "quebec city"
    || c == "hamilton" || c == "kitchener" || c == "london" || c == "victoria"
    || c == "halifax" || c == "oshawa" || c == "windsor" || c == "saskatoon"
    || c == "regina" || c == "st. catharines" || c == "kelowna" || c == "barrie"
    || c == "abbotsford" || c == "sherbrooke" || c == "kingston" || c == "trois-rivières"
    || c == "guelph" || c == "moncton" || c == "brantford" || c == "thunder bay"
    || c == "saint john" || c == "peterborough"
  }

  /** `AUSTRALIA_MAJOR_CITIES`: the lower-cased Australian cities `is_major_city` knows. */
  predicate IsAustraliaMajorCity(c: string) {
    c == "sydney" || c == "melbourne" || c == "brisbane" || c == "perth"
    || c == "adelaide" || c == "gold coast" || c == "canberra" || c == "newcastle"
    || c == "sunshine coast" || c == "wollongong" || c == "hobart" || c == "geelong"
    || c == "townsville" || c == "cairns" || c == "darwin" || c == "toowoomba"
    || c == "ballarat" || c == "bendigo" || c == "launceston" || c == "mackay"
    || c == "rockhampton" || c == "bunbury" || c == "bundaberg" || c == "hervey bay"
    || c == "wagga wagga"
  }

  /** `is_major_city(city, country)`: the country's list for a recognised country, both lists otherwise. */
  function IsMajorCity(city: Value, country: Value): (r: bool)
    requires TextLike(city) && (Truthy(city) ==> TextLike(country))
    ensures !Truthy(city) ==> !r
    ensures r ==> IsCanadaMajorCity(Lower(Strip(city.s))) || IsAustraliaMajorCity(Lower(Strip(city.s)))
    ensures Truthy(city) && !Truthy(country) ==> (r <==> IsCanadaMajorCity(Lower(Strip(city.s))) || IsAustraliaMajorCity(Lower(Strip(city.s))))
    ensures Truthy(city) && Truthy(country) && IsCanadaToken(Lower(country.s)) ==> (r <==> IsCanadaMajorCity(Lower(Strip(city.s))))
    ensures Truthy(city) && Truthy(country) && IsAustraliaToken(Lower(country.s)) ==> (r <==> IsAustraliaMajorCity(Lower(Strip(city.s))))
  {
    if !Truthy(city) then false
    else
      var c := Lower(Strip(city.s));
      if Truthy(country) && IsCanadaToken(Lower(country.s)) then IsCanadaMajorCity(c)
      else if Truthy(country) && IsAustraliaToken(Lower(country.s)) then IsAustraliaMajorCity(c)
      else IsCanadaMajorCity(c) || IsAustraliaMajorCity(c)
  }

  // ---------------------------------------------------------------- validate_record

  datatype ValidationError =
    | MissingField(field: string)
    | InvalidCapacity(text: string)
    | NegativeCapacity(amount: int)
    | ImplausibleCapacity(amount: int)
    | InvalidDate(dateField: string, shown: string)
    | UnsupportedCountry(country: string)

  /** The required fields per record type; any other type uses the `new_project` list. */
  function RequiredFields(recordType: string): (fields: seq<string>)
    ensures |fields| == 4 && fields[..3] == ["name", "country", "source"]
  {
    if recordType == "tender" then ["name", "country", "source", "published_date"]
    else ["name", "country", "source", "discovered_date"]
  }

  /** `value is None or (isinstance(value, str) and not value.strip())` */
  predicate Blank(v: Value) {
    v.Null? || (v.Str? && Strip(v.s) == [])
  }

  /** One `MissingField` error per blank field of `fields`, in order. */
  function RequiredErrors(record: Dict, fields: seq<string>): (errs: seq<ValidationError>)
    ensures |errs| <= |fields|
    ensures forall e :: e in errs ==> e.MissingField? && e.field in fields && Blank(Get(record, e.field, Null))
    ensures forall f :: f in fields && Blank(Get(record, f, Null)) ==> MissingField(f) in errs
    decreases |fields|
  {
    if fields == [] then []
    else
      var f := fields[|fields| - 1];
      var init := fields[..|fields| - 1];
      assert forall g :: g in fields ==> g in init || g == f;
      RequiredErrors(record, init) + (if Blank(Get(record, f, Null)) then [MissingField(f)] else [])
  }

  /** The capacity checks, on `record.get('capacity')`: a string is read with `int()` first. */
  function CapacityErrors(capacity: Value): (errs: seq<ValidationError>)
    ensures |errs| <= 1
    ensures forall e :: e in errs ==> e.InvalidCapacity? || e.NegativeCapacity? || e.ImplausibleCapacity?
    ensures forall e :: e in errs && e.InvalidCapacity? ==> capacity.Str? && ParseInt(capacity.s).None?
    ensures capacity.Str? && ParseInt(capacity.s).None? ==> errs == [InvalidCapacity(capacity.s)]
  {
    match capacity
    case Null => []
    case Str(s) =>
      (match ParseInt(s)
       case None => [InvalidCapacity(s)]
       case Some(n) => AmountErrors(n))
    case Int(n) => AmountErrors(n)
  }

  /** The range checks on a capacity that is a number: below zero, or above 500. */
  function AmountErrors(n: int): (errs: seq<ValidationError>)
    ensures n < 0 <==> errs == [NegativeCapacity(n)]
    ensures n > 500 <==> errs == [ImplausibleCapacity(n)]
    ensures 0 <= n <= 500 <==> errs == []
  {
    if n < 0 then [NegativeCapacity(n)] else if n > 500 then [ImplausibleCapacity(n)] else []
  }

  const ValidatedDateFormats: seq<string> := ["%Y-%m-%d", "%Y/%m/%d", "%d/%m/%Y", "%m/%d/%Y"]

  /** `_validate_date(s)`: some format parses `str(s)`; `parses` stands for `datetime.strptime` succeeding. */
  predicate ValidDate(s: string, parses: (string, string) -> bool) {
    exists k :: 0 <= k < |ValidatedDateFormats| && parses(s, ValidatedDateFormats[k])
  }

  /** `_validate_date`: tries each format in turn. */
  method ValidateDate(s: string, parses: (string, string) -> bool) returns (ok: bool)
    ensures ok == ValidDate(s, parses)
  {
    var k := 0;
    while k < |ValidatedDateFormats|
      invariant 0 <= k <= |ValidatedDateFormats|
      invariant forall j :: 0 <= j < k ==> !parses(s, ValidatedDateFormats[j])
    {
      if parses(s, ValidatedDateFormats[k]) {
        return true;
      }
      k := k + 1;
    }
    return false;
  }

  const DateFields: seq<string> := ["discovered_date", "published_date", "deadline_date"]

  function DateError(record: Dict, f: string, parses: (string, string) -> bool): seq<ValidationError> {
    var v := Get(record, f, Null);
    if Truthy(v) && !ValidDate(Show(v), parses) then [InvalidDate(f, Show(v))] else []
  }

  /** One `InvalidDate` error per truthy date field of `fields` that no format parses. */
  function DateErrors(record: Dict, fields: seq<string>, parses: (string, string) -> bool): (errs: seq<ValidationError>)
    ensures forall e :: e in errs ==> e.InvalidDate? && e.dateField in fields
    ensures forall f :: f in fields && Truthy(Get(record, f, Null)) && !ValidDate(Show(Get(record, f, Null)), parses) ==>
      InvalidDate(f, Show(Get(record, f, Null))) in errs
    ensures forall e :: e in errs ==>
      var v := Get(record, e.dateField, Null); Truthy(v) && !ValidDate(Show(v), parses) && e.shown == Show(v)
    decreases |fields|
  {
    if fields == [] then []
    else
      var init := fields[..|fields| - 1];
      assert forall g :: g in fields ==> g in init || g == fields[|fields| - 1];
      DateErrors(record, init, parses) + DateError(record, fields[|fields| - 1], parses)
  }

  const CountryTokens: seq<string> := ["canada", "australia", "ca", "au", "🇨🇦", "🇦🇺", "🇨🇦 canada", "🇦🇺 australia"]

  predicate HasCountryToken(c: string) {
    exists k :: 0 <= k < |CountryTokens| && Contains(c, CountryTokens[k])
  }

  /** The country check, on `record.get('country', '').lower()`. */
  function CountryErrors(record: Dict): (errs: seq<ValidationError>)
    requires TextOrAbsent(record, "country")
    ensures var c := Lower(TextOf(record, "country"));
      && (errs != [] <==> c != "" && forall k :: 0 <= k < |CountryTokens| ==> !Contains(c, CountryTokens[k]))
      && (forall e :: e in errs ==> e == UnsupportedCountry(c))
      && |errs| <= 1
  {
    var c := Lower(TextOf(record, "country"));
    if c != "" && !HasCountryToken(c) then [UnsupportedCountry(c)] else []
  }

  /** The field is absent or a string: `.lower()` on it does not raise. */
  predicate TextOrAbsent(d: Dict, k: string) {
    k !in d || d[k].Str?
  }

  /** The error list `validate_record(record, record_type)` returns, in the order the checks append. */
  function ValidationErrors(record: Dict, recordType: string, parses: (string, string) -> bool): seq<ValidationError>
    requires TextOrAbsent(record, "country")
  {
    RequiredErrors(record, RequiredFields(recordType))
      + CapacityErrors(Get(record, "capacity", Null))
      + DateErrors(record, DateFields, parses)
      + CountryErrors(record)
  }

  /** `validate_record`: checks the required fields, the capacity, the dates and the country in turn. */
  method ValidateRecord(record: Dict, recordType: string, parses: (string, string) -> bool)
    returns (valid: bool, errors: seq<ValidationError>)
    requires TextOrAbsent(record, "country")
    ensures errors == ValidationErrors(record, recordType, parses)
    ensures valid <==> errors == []
  {
    errors := CheckRequired(record, RequiredFields(recordType));
    var capacityErrors := CheckCapacity(Get(record, "capacity", Null));
    var dateErrors := CheckDates(record, DateFields, parses);
    var countryErrors := CheckCountry(record);
    errors := errors + capacityErrors + dateErrors + countryErrors;
    valid := |errors| == 0;
  }

  /** The required-field loop. */
  method CheckRequired(record: Dict, required: seq<string>) returns (errors: seq<ValidationError>)
    ensures errors == RequiredErrors(record, required)
  {
    errors := [];
    var i := 0;
    while i < |required|
      invariant 0 <= i <= |required|
      invariant errors == RequiredErrors(record, required[..i])
    {
      assert required[..i + 1][..i] == required[..i];
      var value := Get(record, required[i], Null);
      if value.Null? || (value.Str? && Strip(value.s) == []) {
        errors := errors + [MissingField(required[i])];
      }
      i := i + 1;
    }
    assert required[..i] == required;
  }

  /** The capacity block: a string is converted with `int()`, then the number is range-checked. */
  method CheckCapacity(capacity: Value) returns (errors: seq<ValidationError>)
    ensures errors == CapacityErrors(capacity)
  {
    errors := [];
    if !capacity.Null? {
      var amount: Option<int> := if capacity.Int? then Some(capacity.i) else None;
      if capacity.Str? {
        amount := ParseInt(capacity.s);
      }
      match amount
      case None =>
        errors := [InvalidCapacity(capacity.s)];
      case Some(n) =>
        errors := CheckAmount(n);
    }
  }

  /** The two range checks on a capacity that is a number. */
  method CheckAmount(amount: int) returns (errors: seq<ValidationError>)
    ensures errors == AmountErrors(amount)
  {
    errors := [];
    if amount < 0 {
      errors := errors + [NegativeCapacity(amount)];
    }
    if amount > 500 {
      errors := errors + [ImplausibleCapacity(amount)];
    }
  }

  /** The date loop: every truthy date field is handed to `_validate_date`. */
  method CheckDates(record: Dict, fields: seq<string>, parses: (string, string) -> bool) returns (errors: seq<ValidationError>)
    ensures errors == DateErrors(record, fields, parses)
  {
    errors := [];
    var k := 0;
    while k < |fields|
      invariant 0 <= k <= |fields|
      invariant errors == DateErrors(record, fields[..k], parses)
    {
      assert fields[..k + 1][..k] == fields[..k];
      var dateValue := Get(record, fields[k], Null);
      if Truthy(dateValue) {
        var ok := ValidateDate(Show(dateValue), parses);
        if !ok {
          errors := errors + [InvalidDate(fields[k], Show(dateValue))];
        }
      }
      k := k + 1;
    }
    assert fields[..k] == fields;
  }

  /** The country block: `any(valid in country for valid in valid_countries)`. */
  method CheckCountry(record: Dict) returns (errors: seq<ValidationError>)
    requires TextOrAbsent(record, "country")
    ensures errors == CountryErrors(record)
  {
    var country := Lower(TextOf(record, "country"));
    var tokenFound := false;
    var t := 0;
    while t < |CountryTokens|
      invariant 0 <= t <= |CountryTokens|
      invariant tokenFound <==> exists j :: 0 <= j < t && Contains(country, CountryTokens[j])
    {
      if Contains(country, CountryTokens[t]) {
        tokenFound := true;
      }
      t := t + 1;
    }
    errors := if country != "" && !tokenFound then [UnsupportedCountry(country)] else [];
  }

  /** An unknown record type is validated like a `new_project`. */
  lemma UnknownTypeIsNewProject(record: Dict, recordType: string, parses: (string, string) -> bool)
    requires TextOrAbsent(record, "country")
    requires recordType !in ["new_project", "sale", "tender"]
    ensures ValidationErrors(record, recordType, parses) == ValidationErrors(record, "new_project", parses)
  {
    assert RequiredFields(recordType) == RequiredFields("new_project");
  }

  /** Each required field contributes a `MissingField` error exactly when it is `None` or blank. */
  lemma MissingFieldIff(record: Dict, recordType: string, parses: (string, string) -> bool, f: string)
    requires TextOrAbsent(record, "country")
    requires f in RequiredFields(recordType)
    ensures MissingField(f) in ValidationErrors(record, recordType, parses) <==> Blank(Get(record, f, Null))
  {
    var req, cap, dates, country := ValidationErrorsSplit(record, recordType, parses);
    OnlyKind(req, cap, dates, country, MissingField(f));
  }

  /** Which of the four checks an error comes from. */
  function Check(e: ValidationError): (k: nat)
    ensures k < 4
  {
    match e
    case MissingField(_) => 0
    case InvalidCapacity(_) => 1
    case NegativeCapacity(_) => 1
    case ImplausibleCapacity(_) => 1
    case InvalidDate(_, _) => 2
    case UnsupportedCountry(_) => 3
  }

  /** The error list is the four checks' lists in order, each holding only its own kind of error. */
  lemma ValidationErrorsSplit(record: Dict, recordType: string, parses: (string, string) -> bool)
    returns (req: seq<ValidationError>, cap: seq<ValidationError>, dates: seq<ValidationError>, country: seq<ValidationError>)
    requires TextOrAbsent(record, "country")
    ensures ValidationErrors(record, recordType, parses) == req + cap + dates + country
    ensures req == RequiredErrors(record, RequiredFields(recordType))
    ensures cap == CapacityErrors(Get(record, "capacity", Null))
    ensures dates == DateErrors(record, DateFields, parses)
    ensures country == CountryErrors(record)
    ensures forall x :: x in req ==> Check(x) == 0
    ensures forall x :: x in cap ==> Check(x) == 1
    ensures forall x :: x in dates ==> Check(x) == 2
    ensures forall x :: x in country ==> Check(x) == 3
  {
    req := RequiredErrors(record, RequiredFields(recordType));
    cap := CapacityErrors(Get(record, "capacity", Null));
    dates := DateErrors(record, DateFields, parses);
    country := CountryErrors(record);
    KindsOf(req, 0);
    KindsOf(cap, 1);
    KindsOf(dates, 2);
    KindsOf(country, 3);
  }

  lemma KindsOf(errs: seq<ValidationError>, k: nat)
    requires k == 0 ==> forall e :: e in errs ==> e.MissingField?
    requires k == 1 ==> forall e :: e in errs ==> e.InvalidCapacity? || e.NegativeCapacity? || e.ImplausibleCapacity?
    requires k == 2 ==> forall e :: e in errs ==> e.InvalidDate?
    requires k == 3 ==> forall e :: e in errs ==> e.UnsupportedCountry?
    requires k < 4
    ensures forall e :: e in errs ==> Check(e) == k
  {
  }

  /** In a list made of four single-kind parts, an error can only sit in the part of its kind. */
  lemma OnlyKind(req: seq<ValidationError>, cap: seq<ValidationError>, dates: seq<ValidationError>, country: seq<ValidationError>, e: ValidationError)
    requires forall x :: x in req ==> Check(x) == 0
    requires forall x :: x in cap ==> Check(x) == 1
    requires forall x :: x in dates ==> Check(x) == 2
    requires forall x :: x in country ==> Check(x) == 3
    ensures e in req + cap + dates + country <==> e in [req, cap, dates, country][Check(e)]
  {
  }

  /** The capacity checks: an unparseable string, a negative amount and an amount above 500 each add an error. */
  lemma CapacityChecks(record: Dict, recordType: string, parses: (string, string) -> bool)
    requires TextOrAbsent(record, "country")
    ensures var errs := ValidationErrors(record, recordType, parses);
      var cap := Get(record, "capacity", Null);
      var amount := if cap.Int? then Some(cap.i) else if cap.Str? then ParseInt(cap.s) else None;
      && ((cap.Str? && amount.None?) <==> exists e :: e in errs && e.InvalidCapacity?)
      && (amount.Some? ==> (amount.value < 0 <==> NegativeCapacity(amount.value) in errs))
      && (amount.Some? ==> (amount.value > 500 <==> ImplausibleCapacity(amount.value) in errs))
      && (cap.Null? ==> forall e :: e in errs ==> Check(e) != 1)
  {
    var cap := Get(record, "capacity", Null);
    var amount := if cap.Int? then Some(cap.i) else if cap.Str? then ParseInt(cap.s) else None;
    var req, capErrs, dates, country := ValidationErrorsSplit(record, recordType, parses);
    assert amount.Some? ==> capErrs == AmountErrors(amount.value);
    CapacityPart(req, capErrs, dates, country, cap.Str? && amount.None?, if cap.Str? then cap.s else "",
      if amount.Some? then amount.value else 0, amount.Some?);
  }

  lemma CapacityPart(req: seq<ValidationError>, cap: seq<ValidationError>, dates: seq<ValidationError>, country: seq<ValidationError>,
                     invalid: bool, text: string, n: int, number: bool)
    requires forall x :: x in req ==> Check(x) == 0
    requires forall x :: x in cap ==> Check(x) == 1
    requires forall x :: x in dates ==> Check(x) == 2
    requires forall x :: x in country ==> Check(x) == 3
    requires invalid ==> cap == [InvalidCapacity(text)]
    requires forall e :: e in cap && e.InvalidCapacity? ==> invalid
    requires number ==> cap == AmountErrors(n)
    ensures var errs := req + cap + dates + country;
      && (invalid <==> exists e :: e in errs && e.InvalidCapacity?)
      && (number ==> (n < 0 <==> NegativeCapacity(n) in errs))
      && (number ==> (n > 500 <==> ImplausibleCapacity(n) in errs))
      && (cap == [] ==> forall e :: e in errs ==> Check(e) != 1)
  {
    var errs := req + cap + dates + country;
    forall e | e in errs
      ensures e in [req, cap, dates, country][Check(e)]
    {
      OnlyKind(req, cap, dates, country, e);
    }
    if invalid {
      assert InvalidCapacity(text) in errs;
    }
  }

  /** A non-empty country carrying none of the recognised tokens adds one error, the last one; an empty country never does. */
  lemma CountryCheck(record: Dict, recordType: string, parses: (string, string) -> bool)
    requires TextOrAbsent(record, "country")
    ensures var errs := ValidationErrors(record, recordType, parses);
      var c := Lower(TextOf(record, "country"));
      && ((c != "" && !HasCountryToken(c)) <==> exists e :: e in errs && e.UnsupportedCountry?)
      && (c != "" && !HasCountryToken(c) ==> errs[|errs| - 1] == UnsupportedCountry(c))
  {
    var c := Lower(TextOf(record, "country"));
    var req, cap, dates, country := ValidationErrorsSplit(record, recordType, parses);
    CountryPart(req, cap, dates, country, c);
  }

  lemma CountryPart(req: seq<ValidationError>, cap: seq<ValidationError>, dates: seq<ValidationError>, country: seq<ValidationError>, c: string)
    requires forall x :: x in req ==> Check(x) == 0
    requires forall x :: x in cap ==> Check(x) == 1
    requires forall x :: x in dates ==> Check(x) == 2
    requires country == [] || country == [UnsupportedCountry(c)]
    ensures var errs := req + cap + dates + country;
      && (country != [] <==> exists e :: e in errs && e.UnsupportedCountry?)
      && (country != [] ==> errs[|errs| - 1] == UnsupportedCountry(c))
  {
    var errs := req + cap + dates + country;
    if country != [] {
      assert errs[|errs| - 1] == UnsupportedCountry(c);
    } else {
      forall e | e in errs
        ensures !e.UnsupportedCountry?
      {
        OnlyKind(req, cap, dates, country, e);
      }
    }
  }

  /** The token check is a substring test: any country name containing `ca` or `au` passes it. */
  lemma CountryTokenIsSubstring()
    ensures HasCountryToken("jamaica")
    ensures !HasCountryToken("peru")
  {
    ContainsAt("jamaica", "ca", 5);
    assert CountryTokens[2] == "ca";
    forall k | 0 <= k < |CountryTokens|
      ensures !Contains("peru", CountryTokens[k])
    {
      MissingFirstChar("peru", CountryTokens[k]);
    }
  }

  /** A string without the first character of `sub` does not contain `sub`. */
  lemma {:induction false} MissingFirstChar(s: string, sub: string)
    requires sub != [] && forall i :: 0 <= i < |s| ==> s[i] != sub[0]
    ensures !Contains(s, sub)
    decreases |s|
  {
    if |s| > 0 {
      assert s[0] != sub[0];
      MissingFirstChar(s[1..], sub);
    }
  }
}
