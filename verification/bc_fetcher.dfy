/** The British Columbia child care map fetcher: how a row of the facilities CSV becomes a lead,
    and which fetched leads count as new. */
module BcFetcher {
  import opened Text
  import opened Values
  import opened Seqs
  import opened FetcherCommon

  /** The column each field is read from, as resolved against the CSV header. */
  datatype Columns = Columns(
    name: Option<string>,
    address: Option<string>,
    city: Option<string>,
    postalCode: Option<string>,
    phone: Option<string>,
    email: Option<string>,
    capacity: Option<string>,
    serviceType: Option<string>,
    licenseNumber: Option<string>)

  /** The column mapping `transform` builds from the header. */
  function Resolve(columns: seq<string>): Columns {
    Columns(
      FindColumn(columns, ["NAME", "name", "Facility Name", "FACILITY_NAME"]),
      FindColumn(columns, ["ADDRESS", "address", "Street Address", "STREET_ADDRESS"]),
      FindColumn(columns, ["CITY", "city", "City", "MUNICIPALITY"]),
      FindColumn(columns, ["POSTAL_CODE", "postal_code", "PostalCode"]),
      FindColumn(columns, ["PHONE", "phone", "Phone", "TELEPHONE"]),
      FindColumn(columns, ["EMAIL", "email", "Email"]),
      FindColumn(columns, ["CAPACITY", "capacity", "Total Capacity", "TOTAL_CAPACITY"]),
      FindColumn(columns, ["SERVICE_TYPE", "service_type", "Type", "FACILITY_TYPE"]),
      FindColumn(columns, ["LICENSE_NUMBER", "license_number", "Licence Number"]))
  }

  /** The address with the postal code appended when both are non-empty and the address does not
      already contain the postal code. */
  function FullAddress(address: Option<string>, postal: Option<string>): Option<string> {
    if Present(postal) && Present(address) && !Contains(address.value, postal.value) then
      Some(address.value + ", " + postal.value)
    else address
  }

  /** With a non-empty address and postal code, the full address starts with the address and
      contains the postal code; otherwise it is the address unchanged. */
  lemma FullAddressKeeps(address: Option<string>, postal: Option<string>)
    ensures var full := FullAddress(address, postal);
      && (Present(postal) && Present(address) ==>
            full.Some? && address.value <= full.value && Contains(full.value, postal.value))
      && (!Present(postal) || !Present(address) ==> full == address)
  {
    if Present(postal) && Present(address) && !Contains(address.value, postal.value) {
      var a, p := address.value, postal.value;
      var full := a + ", " + p;
      assert full[|a| + 2..|a| + 2 + |p|] == p;
      ContainsAt(full, p, |a| + 2);
      assert full[..|a|] == a;
    }
  }

  /** The lead a named row becomes. */
  function LeadOf(row: Row, m: Columns, today: string, parseNumber: string -> Option<int>): Lead
    requires Present(SafeGet(row, m.name))
  {
    Lead(
      name := Strip(SafeGet(row, m.name).value),
      address := FullAddress(SafeGet(row, m.address), SafeGet(row, m.postalCode)),
      city := TextOrEmpty(SafeGet(row, m.city)),
      province := "British Columbia",
      country := "Canada",
      licenseNumber := SafeGet(row, m.licenseNumber),
      capacity := CapacityOf(SafeGet(row, m.capacity), parseNumber),
      phone := SafeGet(row, m.phone),
      email := SafeGet(row, m.email),
      extra := map["service_type" := SafeGet(row, m.serviceType)],
      licenseStatus := "新发",
      discoveredDate := today,
      source := "BC Child Care Map",
      sourceUrl := "https://catalogue.data.gov.bc.ca/dataset/child-care-map-data",
      kind := "新建")
  }

  /** The lead one row becomes, `None` for a row without a name. */
  function ShapeRow(row: Row, m: Columns, today: string, parseNumber: string -> Option<int>): Option<Lead> {
    if Present(SafeGet(row, m.name)) then Some(LeadOf(row, m, today, parseNumber)) else None
  }

  /** A named row's lead has a non-empty stripped name and is a British Columbia, Canada, newly
      issued, new-build lead dated today. */
  lemma LeadShape(row: Row, m: Columns, today: string, parseNumber: string -> Option<int>)
    requires Present(SafeGet(row, m.name))
    ensures var lead := LeadOf(row, m, today, parseNumber);
      && lead.name != "" && Strip(lead.name) == lead.name
      && lead.province == "British Columbia" && lead.country == "Canada"
      && lead.licenseStatus == "新发" && lead.kind == "新建"
      && lead.discoveredDate == today && lead.source == "BC Child Care Map"
  {
    var name := SafeGet(row, m.name).value;
    assert Strip(name) == name;
  }

  function Shaper(m: Columns, today: string, parseNumber: string -> Option<int>): Row -> Option<Lead> {
    row => ShapeRow(row, m, today, parseNumber)
  }

  /** The rows `transform` keeps: those with a non-empty name. */
  function Named(m: Columns): Row -> bool {
    row => Present(SafeGet(row, m.name))
  }

  /** `transform(df)`: the header is `columns`, the data rows `rows`, today's date `today`, and
      `parseNumber` the float parse of a capacity cell. */
  method Transform(rows: seq<Row>, columns: seq<string>, today: string, parseNumber: string -> Option<int>)
    returns (records: seq<Lead>)
    ensures records == Collect(rows, Shaper(Resolve(columns), today, parseNumber))
  {
    var m := Resolve(columns);
    records := [];
    for i := 0 to |rows|
      invariant records == Collect(rows[..i], Shaper(m, today, parseNumber))
    {
      if Present(SafeGet(rows[i], m.name)) {
        records := records + [LeadOf(rows[i], m, today, parseNumber)];
      }
      CollectSnoc(rows, Shaper(m, today, parseNumber), i);
    }
    assert rows[..|rows|] == rows;
  }

  /** Every emitted lead has a non-empty stripped name and is a British Columbia, Canada, newly
      issued, new-build lead dated today. */
  lemma TransformedLead(rows: seq<Row>, m: Columns, today: string, parseNumber: string -> Option<int>, lead: Lead)
    requires lead in Collect(rows, Shaper(m, today, parseNumber))
    ensures lead.name != "" && Strip(lead.name) == lead.name
    ensures lead.province == "British Columbia" && lead.country == "Canada"
    ensures lead.licenseStatus == "新发" && lead.kind == "新建" && lead.discoveredDate == today
  {
    CollectSound(rows, Shaper(m, today, parseNumber), lead);
    var row :| row in rows && ShapeRow(row, m, today, parseNumber) == Some(lead);
    LeadShape(row, m, today, parseNumber);
  }

  /** Exactly the named rows are emitted: one lead per row with a non-empty name. */
  lemma TransformedCount(rows: seq<Row>, m: Columns, today: string, parseNumber: string -> Option<int>)
    ensures |Collect(rows, Shaper(m, today, parseNumber))| == Count(rows, Named(m))
    ensures forall i :: 0 <= i < |rows| && Named(m)(rows[i]) ==>
      ShapeRow(rows[i], m, today, parseNumber).value in Collect(rows, Shaper(m, today, parseNumber))
  {
    CollectCount(rows, Shaper(m, today, parseNumber), Named(m));
    forall i | 0 <= i < |rows| && Named(m)(rows[i])
      ensures ShapeRow(rows[i], m, today, parseNumber).value in Collect(rows, Shaper(m, today, parseNumber))
    {
      CollectComplete(rows, Shaper(m, today, parseNumber), i);
    }
  }

  /** The fetcher's status, as far as the filtering updates it. */
  class Fetcher {
    /** `status['count']` */
    var count: nat

    constructor ()
      ensures count == 0
    {
      count := 0;
    }

    /** `fetch_new_facilities(existing_licenses)`, where `all` is what `fetch()` returned. */
    method FetchNewFacilities(all: seq<Lead>, existing: Option<set<string>>) returns (r: seq<Lead>)
      modifies this
      ensures r == NewRecords(all, existing)
      ensures count == if Unfiltered(existing) then old(count) else |r|
    {
      if existing.None? || |existing.value| == 0 {
        return all;
      }
      var known := existing.value;
      r := Filter(all, lead => IsNew(known, lead));
      count := |r|;
    }
  }
}
