/** The Australian national register fetcher: how a row of the approved-services CSV becomes a
    lead, and which fetched leads count as new. */
module AcecqaFetcher {
  import opened Text
  import opened Values
  import opened Seqs
  import opened FetcherCommon

  /** The column each field is read from, as resolved against the CSV header. */
  datatype Columns = Columns(
    name: Option<string>,
    address: Option<string>,
    suburb: Option<string>,
    state: Option<string>,
    postcode: Option<string>,
    phone: Option<string>,
    email: Option<string>,
    serviceType: Option<string>,
    approvalNumber: Option<string>,
    qualityRating: Option<string>,
    approvedPlaces: Option<string>)

  /** The column mapping `transform` builds from the header. */
  function Resolve(columns: seq<string>): Columns {
    Columns(
      FindColumn(columns, ["Service Name", "SERVICE_NAME", "Name", "name", "Approved Provider", "Provider Name"]),
      FindColumn(columns, ["Address", "ADDRESS", "Street Address", "Service Address", "Physical Address"]),
      FindColumn(columns, ["Suburb", "SUBURB", "City", "Locality"]),
      FindColumn(columns, ["State", "STATE", "State/Territory"]),
      FindColumn(columns, ["Postcode", "POSTCODE", "Post Code", "Postal Code"]),
      FindColumn(columns, ["Phone", "PHONE", "Contact Phone", "Telephone"]),
      FindColumn(columns, ["Email", "EMAIL", "Contact Email"]),
      FindColumn(columns, ["Service Type", "SERVICE_TYPE", "Type", "Care Type"]),
      FindColumn(columns, ["Approval Number", "APPROVAL_NUMBER", "SE Number", "Service Approval Number", "Approval No"]),
      FindColumn(columns, ["Overall Rating", "Quality Rating", "OVERALL_RATING", "Quality Area Rating"]),
      FindColumn(columns, ["Approved Places", "APPROVED_PLACES", "Capacity", "Maximum Approved Places"]))
  }

  // ---------------------------------------------------------------- _normalize_state

  /** `state_mapping.get(code)`: the full name of a lower-cased state or territory code. */
  function StateName(code: string): (r: Option<string>)
    ensures r.Some? ==> |code| <= 3 && |r.value| >= 8
    ensures r.Some? ==> IsLetter(r.value[0]) && IsLetter(r.value[|r.value| - 1])
  {
    if code == "nsw" then Some("New South Wales")
    else if code == "vic" then Some("Victoria")
    else if code == "qld" then Some("Queensland")
    else if code == "wa" then Some("Western Australia")
    else if code == "sa" then Some("South Australia")
    else if code == "tas" then Some("Tasmania")
    else if code == "act" then Some("Australian Capital Territory")
    else if code == "nt" then Some("Northern Territory")
    else None
  }

  /** `_normalize_state(state)`: `''` for an empty state, the full name of a known code in any case
      and with surrounding blanks, and any other text exactly as given (not even stripped). */
  function NormalizeState(state: Option<string>): (r: string)
    ensures r == "" <==> !Present(state)
    ensures Present(state) && StateName(Strip(Lower(state.value))).Some? ==> r == StateName(Strip(Lower(state.value))).value
    ensures Present(state) && StateName(Strip(Lower(state.value))).None? ==> r == state.value
  {
    if !Present(state) then ""
    else
      var full := StateName(Strip(Lower(state.value)));
      if full.Some? then full.value else state.value
  }

  /** Lower-casing text that starts and ends with a letter leaves nothing to strip. */
  lemma LowerOfLettersUnstripped(s: string)
    requires s != [] && IsLetter(s[0]) && IsLetter(s[|s| - 1])
    ensures Strip(Lower(s)) == Lower(s)
  {
    StripNoEdgeSpace(Lower(s));
  }

  /** A full name is at least eight characters long and starts and ends with a letter. */
  lemma FullNameShape(code: string)
    requires StateName(code).Some?
    ensures var name := StateName(code).value; |name| >= 8 && IsLetter(name[0]) && IsLetter(name[|name| - 1])
  {
  }

  /** A name of at least eight letters, lower-cased and stripped, is not a code. */
  lemma LongNameNotCode(name: string)
    requires |name| >= 8 && IsLetter(name[0]) && IsLetter(name[|name| - 1])
    ensures StateName(Strip(Lower(name))).None?
  {
    LowerOfLettersUnstripped(name);
    assert |Strip(Lower(name))| == |name|;
  }

  /** A full state name normalises to itself. */
  lemma FullNameStable(code: string)
    requires StateName(code).Some?
    ensures NormalizeState(Some(StateName(code).value)) == StateName(code).value
  {
    FullNameShape(code);
    LongNameNotCode(StateName(code).value);
  }

  /** A full state name is not itself a code, so normalising twice changes nothing. */
  lemma NormalizeStateIdempotent(state: Option<string>)
    ensures NormalizeState(Some(NormalizeState(state))) == NormalizeState(state)
  {
    if Present(state) && StateName(Strip(Lower(state.value))).Some? {
      FullNameStable(Strip(Lower(state.value)));
    }
  }

  // ---------------------------------------------------------------- transform

  /** `', '.join(p for p in [address, suburb, state, postcode] if p)` */
  function FullAddress(address: Option<string>, suburb: Option<string>, state: Option<string>, postcode: Option<string>): string {
    Join(", ", PresentParts([address, suburb, state, postcode]))
  }

  /** A present cell's text occurs in the joined non-empty cells. */
  lemma PartInAddress(cells: seq<Option<string>>, i: nat)
    requires i < |cells|
    ensures Present(cells[i]) ==> Contains(Join(", ", PresentParts(cells)), cells[i].value)
  {
    if Present(cells[i]) {
      var parts := PresentParts(cells);
      PresentPartsKeep(cells, i);
      var j :| 0 <= j < |parts| && parts[j] == cells[i].value;
      JoinContains(", ", parts, j);
    }
  }

  /** Every non-empty address part occurs in the full address, and the full address is empty
      exactly when every part is. */
  lemma FullAddressParts(address: Option<string>, suburb: Option<string>, state: Option<string>, postcode: Option<string>)
    ensures var full := FullAddress(address, suburb, state, postcode);
      && (Present(address) ==> Contains(full, address.value))
      && (Present(suburb) ==> Contains(full, suburb.value))
      && (Present(state) ==> Contains(full, state.value))
      && (Present(postcode) ==> Contains(full, postcode.value))
      && (full == "" <==> !Present(address) && !Present(suburb) && !Present(state) && !Present(postcode))
  {
    var cells := [address, suburb, state, postcode];
    var parts := PresentParts(cells);
    PartInAddress(cells, 0);
    PartInAddress(cells, 1);
    PartInAddress(cells, 2);
    PartInAddress(cells, 3);
    PresentPartsNone(cells);
    if parts != [] {
      assert parts[0] in parts;
      JoinNonEmpty(", ", parts);
    }
  }

  /** The lead a named row becomes. */
  function LeadOf(row: Row, m: Columns, today: string, parseNumber: string -> Option<int>): Lead
    requires Present(SafeGet(row, m.name))
  {
    var suburb := SafeGet(row, m.suburb);
    var state := SafeGet(row, m.state);
    Lead(
      name := Strip(SafeGet(row, m.name).value),
      address := Some(FullAddress(SafeGet(row, m.address), suburb, state, SafeGet(row, m.postcode))),
      city := TextOrEmpty(suburb),
      province := NormalizeState(state),
      country := "Australia",
      licenseNumber := SafeGet(row, m.approvalNumber),
      capacity := CapacityOf(SafeGet(row, m.approvedPlaces), parseNumber),
      phone := SafeGet(row, m.phone),
      email := SafeGet(row, m.email),
      extra := map["service_type" := SafeGet(row, m.serviceType), "quality_rating" := SafeGet(row, m.qualityRating)],
      licenseStatus := "已批准",
      discoveredDate := today,
      source := "ACECQA National Register",
      sourceUrl := "https://www.acecqa.gov.au/resources/national-registers",
      kind := "新建")
  }

  /** The lead one row becomes, `None` for a row without a name. */
  function ShapeRow(row: Row, m: Columns, today: string, parseNumber: string -> Option<int>): Option<Lead> {
    if Present(SafeGet(row, m.name)) then Some(LeadOf(row, m, today, parseNumber)) else None
  }

  /** A named row's lead has a non-empty stripped name, is Australian, approved and new, and is
      dated today; its province is already normalised. */
  lemma LeadShape(row: Row, m: Columns, today: string, parseNumber: string -> Option<int>)
    requires Present(SafeGet(row, m.name))
    ensures var lead := LeadOf(row, m, today, parseNumber);
      && lead.name != "" && Strip(lead.name) == lead.name
      && lead.country == "Australia" && lead.licenseStatus == "已批准" && lead.kind == "新建"
      && lead.discoveredDate == today && lead.source == "ACECQA National Register"
      && lead.address.Some?
      && NormalizeState(Some(lead.province)) == lead.province
  {
    var name := SafeGet(row, m.name).value;
    assert Strip(name) == name;
    NormalizeStateIdempotent(SafeGet(row, m.state));
  }

  function Shaper(m: Columns, today: string, parseNumber: string -> Option<int>): Row -> Option<Lead> {
    row => ShapeRow(row, m, today, parseNumber)
  }

  /** The rows `transform` keeps: those with a non-empty name. */
  function Named(m: Columns): Row -> bool {
    row => Present(SafeGet(row, m.name))
  }

  /** `transform(df)`: the header is `columns`, the data rows `rows`, today's date `today`, and
      `parseNumber` the float parse of a capacity cell. */
  method Transform(rows: seq<Row>, columns: seq<string>, today: string, parseNumber: string -> Option<int>)
    returns (records: seq<Lead>)
    ensures records == Collect(rows, Shaper(Resolve(columns), today, parseNumber))
  {
    var m := Resolve(columns);
    records := [];
    for i := 0 to |rows|
      invariant records == Collect(rows[..i], Shaper(m, today, parseNumber))
    {
      if Present(SafeGet(rows[i], m.name)) {
        records := records + [LeadOf(rows[i], m, today, parseNumber)];
      }
      CollectSnoc(rows, Shaper(m, today, parseNumber), i);
    }
    assert rows[..|rows|] == rows;
  }

  /** Every emitted lead has a non-empty stripped name, is Australian, approved and new, and is
      dated today; its province is the normalised state. */
  lemma TransformedLead(rows: seq<Row>, m: Columns, today: string, parseNumber: string -> Option<int>, lead: Lead)
    requires lead in Collect(rows, Shaper(m, today, parseNumber))
    ensures lead.name != "" && Strip(lead.name) == lead.name
    ensures lead.country == "Australia" && lead.licenseStatus == "已批准" && lead.kind == "新建"
    ensures lead.discoveredDate == today && lead.source == "ACECQA National Register"
    ensures lead.address.Some?
    ensures NormalizeState(Some(lead.province)) == lead.province
  {
    CollectSound(rows, Shaper(m, today, parseNumber), lead);
    var row :| row in rows && ShapeRow(row, m, today, parseNumber) == Some(lead);
    LeadShape(row, m, today, parseNumber);
  }

  /** Exactly the named rows are emitted: one lead per row with a non-empty name. */
  lemma TransformedCount(rows: seq<Row>, m: Columns, today: string, parseNumber: string -> Option<int>)
    ensures |Collect(rows, Shaper(m, today, parseNumber))| == Count(rows, Named(m))
    ensures forall i :: 0 <= i < |rows| && Named(m)(rows[i]) ==>
      ShapeRow(rows[i], m, today, parseNumber).value in Collect(rows, Shaper(m, today, parseNumber))
  {
    CollectCount(rows, Shaper(m, today, parseNumber), Named(m));
    forall i | 0 <= i < |rows| && Named(m)(rows[i])
      ensures ShapeRow(rows[i], m, today, parseNumber).value in Collect(rows, Shaper(m, today, parseNumber))
    {
      CollectComplete(rows, Shaper(m, today, parseNumber), i);
    }
  }

  // ---------------------------------------------------------------- fetch_new_services

  /** The fetcher's status, as far as the filtering updates it. */
  class Fetcher {
    /** `status['count']` */
    var count: nat

    constructor ()
      ensures count == 0
    {
      count := 0;
    }

    /** `fetch_new_services(existing_approvals)`, where `all` is what `fetch()` returned. */
    method FetchNewServices(all: seq<Lead>, existing: Option<set<string>>) returns (r: seq<Lead>)
      modifies this
      ensures r == NewRecords(all, existing)
      ensures count == if Unfiltered(existing) then old(count) else |r|
    {
      if existing.None? || |existing.value| == 0 {
        return all;
      }
      var known := existing.value;
      r := Filter(all, lead => IsNew(known, lead));
      count := |r|;
    }
  }
}
