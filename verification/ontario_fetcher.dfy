/** The Ontario open-data fetcher: how a row of the licensed child care facilities CSV becomes a
    lead, and which fetched leads count as new. */
module OntarioFetcher {
  import opened Text
  import opened Values
  import opened Seqs
  import opened FetcherCommon

  /** The column each field is read from, as resolved against the CSV header. */
  datatype Columns = Columns(
    name: Option<string>,
    licenseHolder: Option<string>,
    address: Option<string>,
    city: Option<string>,
    licenseNumber: Option<string>,
    capacity: Option<string>,
    phone: Option<string>,
    email: Option<string>,
    issueDate: Option<string>,
    postalCode: Option<string>)

  /** The column mapping `transform` builds from the header. */
  function Resolve(columns: seq<string>): Columns {
    Columns(
      FindColumn(columns, ["Centre Name", "center_name", "Name", "name"]),
      FindColumn(columns, ["Licence Holder", "License Holder", "licence_holder"]),
      FindColumn(columns, ["Address", "address", "Street Address"]),
      FindColumn(columns, ["City", "city", "Municipality"]),
      FindColumn(columns, ["Licence Number", "License Number", "licence_number"]),
      FindColumn(columns, ["Total Capacity", "Capacity", "capacity", "total_capacity"]),
      FindColumn(columns, ["Phone", "phone", "Telephone"]),
      FindColumn(columns, ["Email", "email", "E-mail"]),
      FindColumn(columns, ["Issue Date", "issue_date", "Licence Issue Date"]),
      FindColumn(columns, ["Postal Code", "postal_code", "PostalCode"]))
  }

  /** The centre name, or the licence holder when the centre name is empty. */
  function NameOf(row: Row, m: Columns): Option<string> {
    var name := SafeGet(row, m.name);
    if Present(name) then name else SafeGet(row, m.licenseHolder)
  }

  /** The address with the postal code appended when there is one and `str(address)` does not
      already contain it. A missing address prints as `None`, as Python's f-string does. */
  function FullAddress(address: Option<string>, postal: Option<string>): Option<string> {
    if Present(postal) && !Contains(ShowCell(address), postal.value) then Some(ShowCell(address) + ", " + postal.value)
    else address
  }

  /** A non-empty postal code always ends up in the printed full address, the printed address is
      kept as its prefix, and without a postal code the address is untouched. */
  lemma FullAddressKeeps(address: Option<string>, postal: Option<string>)
    ensures var full := FullAddress(address, postal);
      && (Present(postal) ==> Contains(ShowCell(full), postal.value))
      && ShowCell(address) <= ShowCell(full)
      && (!Present(postal) ==> full == address)
  {
    if Present(postal) && !Contains(ShowCell(address), postal.value) {
      var a, p := ShowCell(address), postal.value;
      var full := a + ", " + p;
      assert full[|a| + 2..|a| + 2 + |p|] == p;
      ContainsAt(full, p, |a| + 2);
      assert full[..|a|] == a;
    }
  }

  /** The lead a row with a centre name or a licence holder becomes. */
  function LeadOf(row: Row, m: Columns, today: string, parseNumber: string -> Option<int>): Lead
    requires Present(NameOf(row, m))
  {
    var issue := SafeGet(row, m.issueDate);
    Lead(
      name := Strip(NameOf(row, m).value),
      address := FullAddress(SafeGet(row, m.address), SafeGet(row, m.postalCode)),
      city := TextOrEmpty(SafeGet(row, m.city)),
      province := "Ontario",
      country := "Canada",
      licenseNumber := SafeGet(row, m.licenseNumber),
      capacity := CapacityOf(SafeGet(row, m.capacity), parseNumber),
      phone := SafeGet(row, m.phone),
      email := SafeGet(row, m.email),
      extra := map["license_holder" := SafeGet(row, m.licenseHolder)]
        + (if Present(issue) then map["issue_date" := issue] else map[]),
      licenseStatus := "新发",
      discoveredDate := today,
      source := "Ontario Open Data",
      sourceUrl := "https://data.ontario.ca/dataset/licensed-child-care-facilities-in-ontario",
      kind := "新建")
  }

  /** The lead one row becomes, `None` for a row with neither a centre name nor a licence holder. */
  function ShapeRow(row: Row, m: Columns, today: string, parseNumber: string -> Option<int>): Option<Lead> {
    if Present(NameOf(row, m)) then Some(LeadOf(row, m, today, parseNumber)) else None
  }

  /** A kept row's lead is named after the centre, or after the licence holder when the centre
      name is empty; it is an Ontario, Canada, newly issued, new-build lead dated today; and it
      carries an issue date exactly when the row has a non-empty one. */
  lemma LeadShape(row: Row, m: Columns, today: string, parseNumber: string -> Option<int>)
    requires Present(NameOf(row, m))
    ensures var lead := LeadOf(row, m, today, parseNumber);
      && lead.name != "" && Strip(lead.name) == lead.name
      && (Present(SafeGet(row, m.name)) ==> lead.name == SafeGet(row, m.name).value)
      && (!Present(SafeGet(row, m.name)) ==> lead.name == SafeGet(row, m.licenseHolder).value)
      && lead.province == "Ontario" && lead.country == "Canada"
      && lead.licenseStatus == "新发" && lead.kind == "新建"
      && lead.discoveredDate == today && lead.source == "Ontario Open Data"
      && ("issue_date" in lead.extra <==> Present(SafeGet(row, m.issueDate)))
      && ("issue_date" in lead.extra ==> lead.extra["issue_date"] == SafeGet(row, m.issueDate))
      && lead.extra["license_holder"] == SafeGet(row, m.licenseHolder)
  {
    var name := NameOf(row, m).value;
    assert Strip(name) == name;
  }

  function Shaper(m: Columns, today: string, parseNumber: string -> Option<int>): Row -> Option<Lead> {
    row => ShapeRow(row, m, today, parseNumber)
  }

  /** The rows `transform` keeps: those with a centre name or a licence holder. */
  function Named(m: Columns): Row -> bool {
    row => Present(SafeGet(row, m.name)) || Present(SafeGet(row, m.licenseHolder))
  }

  /** `transform(df)`: the header is `columns`, the data rows `rows`, today's date `today`, and
      `parseNumber` the float parse of a capacity cell. */
  method Transform(rows: seq<Row>, columns: seq<string>, today: string, parseNumber: string -> Option<int>)
    returns (records: seq<Lead>)
    ensures records == Collect(rows, Shaper(Resolve(columns), today, parseNumber))
  {
    var m := Resolve(columns);
    records := [];
    for i := 0 to |rows|
      invariant records == Collect(rows[..i], Shaper(m, today, parseNumber))
    {
      if Present(NameOf(rows[i], m)) {
        records := records + [LeadOf(rows[i], m, today, parseNumber)];
      }
      CollectSnoc(rows, Shaper(m, today, parseNumber), i);
    }
    assert rows[..|rows|] == rows;
  }

  /** Every emitted lead has a non-empty stripped name and is an Ontario, Canada, newly issued,
      new-build lead dated today, with an issue date only where one is non-empty. */
  lemma TransformedLead(rows: seq<Row>, m: Columns, today: string, parseNumber: string -> Option<int>, lead: Lead)
    requires lead in Collect(rows, Shaper(m, today, parseNumber))
    ensures lead.name != "" && Strip(lead.name) == lead.name
    ensures lead.province == "Ontario" && lead.country == "Canada"
    ensures lead.licenseStatus == "新发" && lead.kind == "新建" && lead.discoveredDate == today
    ensures "issue_date" in lead.extra ==> Present(lead.extra["issue_date"])
  {
    CollectSound(rows, Shaper(m, today, parseNumber), lead);
    var row :| row in rows && ShapeRow(row, m, today, parseNumber) == Some(lead);
    LeadShape(row, m, today, parseNumber);
  }

  /** Exactly the rows with a centre name or a licence holder are emitted, one lead each. */
  lemma TransformedCount(rows: seq<Row>, m: Columns, today: string, parseNumber: string -> Option<int>)
    ensures |Collect(rows, Shaper(m, today, parseNumber))| == Count(rows, Named(m))
    ensures forall i :: 0 <= i < |rows| && Named(m)(rows[i]) ==>
      ShapeRow(rows[i], m, today, parseNumber).value in Collect(rows, Shaper(m, today, parseNumber))
  {
    CollectCount(rows, Shaper(m, today, parseNumber), Named(m));
    forall i | 0 <= i < |rows| && Named(m)(rows[i])
      ensures ShapeRow(rows[i], m, today, parseNumber).value in Collect(rows, Shaper(m, today, parseNumber))
    {
      CollectComplete(rows, Shaper(m, today, parseNumber), i);
    }
  }

  /** The fetcher's status, as far as the filtering updates it. */
  class Fetcher {
    /** `status['count']` */
    var count: nat

    constructor ()
      ensures count == 0
    {
      count := 0;
    }

    /** `fetch_new_licenses(existing_licenses)`, where `all` is what `fetch()` returned. */
    method FetchNewLicenses(all: seq<Lead>, existing: Option<set<string>>) returns (r: seq<Lead>)
      modifies this
      ensures r == NewRecords(all, existing)
      ensures count == if Unfiltered(existing) then old(count) else |r|
    {
      if existing.None? || |existing.value| == 0 {
        return all;
      }
      var known := existing.value;
      r := Filter(all, lead => IsNew(known, lead));
      count := |r|;
    }
  }
}
