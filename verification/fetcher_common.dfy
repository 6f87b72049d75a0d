/** What the three register fetchers share: reading a CSV row cell by cell, resolving a field to
    one of a list of candidate column names, the shape of an emitted lead, and the filter that
    drops licences already on file. The three source files each carry their own identical copy
    of `_find_column`, `_safe_get` and the `fetch_new_*` comprehension; each is defined once here. */
module FetcherCommon {
  import opened Text
  import opened Values
  import opened Seqs

  /** One CSV row: column name to cell, `None` where the cell is empty (pandas NaN). */
  type Row = map<string, Option<string>>

  /** Python truthiness of an optional string: `None` and `''` are false. */
  predicate Present(cell: Option<string>) {
    cell.Some? && cell.value != ""
  }

  /** `str(x)` of an optional string. */
  function ShowCell(cell: Option<string>): string {
    if cell.Some? then cell.value else "None"
  }

  /** `_safe_get(row, column)`: nothing for an unresolved column, a missing column or an empty
      cell, otherwise the stripped text of a non-empty cell. */
  function SafeGet(row: Row, column: Option<string>): (r: Option<string>)
    ensures r.Some? ==> column.Some? && column.value in row && row[column.value].Some?
    ensures r.Some? ==> r.value == Strip(r.value)
  {
    if column.None? || column.value !in row then None
    else
      var cell := row[column.value];
      if cell.None? || cell.value == "" then None
      else
        var s := Strip(cell.value);
        StripNoEdgeSpace(s);
        Some(s)
  }

  // ---------------------------------------------------------------- _find_column

  /** The first column equal to `name` ignoring case, scanning the columns in order. */
  function FirstCaseless(columns: seq<string>, name: string): (r: Option<string>)
    ensures r.Some? ==> r.value in columns && Lower(r.value) == Lower(name)
    ensures r.None? ==> forall c :: c in columns ==> Lower(c) != Lower(name)
  {
    if columns == [] then None
    else if Lower(columns[0]) == Lower(name) then Some(columns[0])
    else FirstCaseless(columns[1..], name)
  }

  /** Some column is equal to `name` ignoring case. */
  predicate Matches(columns: seq<string>, name: string) {
    exists c :: c in columns && Lower(c) == Lower(name)
  }

  /** A column matches its own name. */
  lemma ExactMatches(columns: seq<string>, name: string)
    ensures name in columns ==> Matches(columns, name)
  {
    if name in columns {
      assert Lower(name) == Lower(name);
    }
  }

  /** `_find_column(columns, possible_names)`: for each candidate in turn, the candidate itself when
      it is a column, else the first column equal to it ignoring case; `None` when no candidate
      names a column in any case. */
  function FindColumn(columns: seq<string>, names: seq<string>): (r: Option<string>)
    ensures r.Some? ==> r.value in columns
    ensures r.None? <==> forall n :: n in names ==> !Matches(columns, n)
  {
    if names == [] then None
    else if names[0] in columns then
      ExactMatches(columns, names[0]);
      Some(names[0])
    else
      var caseless := FirstCaseless(columns, names[0]);
      if caseless.Some? then caseless else FindColumn(columns, names[1..])
  }

  /** The case-insensitive scan returns the earliest matching column. */
  lemma {:induction false} FirstCaselessEarliest(columns: seq<string>, name: string, k: nat)
    requires k < |columns| && Lower(columns[k]) == Lower(name)
    requires forall j :: 0 <= j < k ==> Lower(columns[j]) != Lower(name)
    ensures FirstCaseless(columns, name) == Some(columns[k])
  {
    if k > 0 {
      FirstCaselessEarliest(columns[1..], name, k - 1);
    }
  }

  /** Candidates are tried in order: the first candidate that names a column in any case decides,
      and for that candidate an exact match wins over a case-insensitive one. */
  lemma {:induction false} FindColumnFirst(columns: seq<string>, names: seq<string>, i: nat)
    requires i < |names| && Matches(columns, names[i])
    requires forall j :: 0 <= j < i ==> !Matches(columns, names[j])
    ensures names[i] in columns ==> FindColumn(columns, names) == Some(names[i])
    ensures names[i] !in columns ==> FindColumn(columns, names) == FirstCaseless(columns, names[i])
    ensures FindColumn(columns, names).Some? && Lower(FindColumn(columns, names).value) == Lower(names[i])
  {
    if i == 0 {
      assert FirstCaseless(columns, names[0]).Some?;
    } else {
      assert !Matches(columns, names[0]);
      ExactMatches(columns, names[0]);
      FindColumnFirst(columns, names[1..], i - 1);
    }
  }

  // ---------------------------------------------------------------- emitted records

  /** A record as a fetcher emits it. Fields that only some fetchers write (`service_type`,
      `quality_rating`, `license_holder`, `issue_date`) are kept in `extra`, where a key is absent
      when the fetcher does not write it. */
  datatype Lead = Lead(
    name: string,
    address: Option<string>,
    city: string,
    province: string,
    country: string,
    licenseNumber: Option<string>,
    capacity: Option<int>,
    phone: Option<string>,
    email: Option<string>,
    extra: map<string, Option<string>>,
    licenseStatus: string,
    discoveredDate: string,
    source: string,
    sourceUrl: string,
    kind: string)

  /** `str(x).strip() if x else ''` */
  function TextOrEmpty(cell: Option<string>): string {
    if Present(cell) then Strip(cell.value) else ""
  }

  /** `int(float(str(x).replace(',', ''))) if x else None`, with the float parse a parameter that
      answers `None` where the source catches `ValueError`. */
  function CapacityOf(cell: Option<string>, parseNumber: string -> Option<int>): Option<int> {
    if Present(cell) then parseNumber(cell.value) else None
  }

  /** The records a row loop appends, in row order: `shape` answers `None` for a skipped row. */
  function Collect(rows: seq<Row>, shape: Row -> Option<Lead>): (r: seq<Lead>)
    ensures |r| <= |rows|
  {
    if rows == [] then []
    else
      var last := shape(rows[|rows| - 1]);
      Collect(rows[..|rows| - 1], shape) + (if last.Some? then [last.value] else [])
  }

  lemma CollectSnoc(rows: seq<Row>, shape: Row -> Option<Lead>, i: nat)
    requires i < |rows|
    ensures Collect(rows[..i + 1], shape)
         == Collect(rows[..i], shape) + (if shape(rows[i]).Some? then [shape(rows[i]).value] else [])
  {
    assert rows[..i + 1][..i] == rows[..i];
  }

  /** Every emitted record is the record some row shapes to. */
  lemma {:induction false} CollectSound(rows: seq<Row>, shape: Row -> Option<Lead>, lead: Lead)
    requires lead in Collect(rows, shape)
    ensures exists row :: row in rows && shape(row) == Some(lead)
  {
    var front := rows[..|rows| - 1];
    if lead in Collect(front, shape) {
      CollectSound(front, shape, lead);
      var row :| row in front && shape(row) == Some(lead);
      assert row in rows;
    } else {
      assert rows[|rows| - 1] in rows;
    }
  }

  /** Every row that is not skipped is emitted. */
  lemma {:induction false} CollectComplete(rows: seq<Row>, shape: Row -> Option<Lead>, i: nat)
    requires i < |rows| && shape(rows[i]).Some?
    ensures shape(rows[i]).value in Collect(rows, shape)
  {
    if i < |rows| - 1 {
      var front := rows[..|rows| - 1];
      assert front[i] == rows[i];
      CollectComplete(front, shape, i);
    }
  }

  /** One record per row that is not skipped, where `keep` tells the kept rows. */
  lemma {:induction false} CollectCount(rows: seq<Row>, shape: Row -> Option<Lead>, keep: Row -> bool)
    requires forall row :: shape(row).Some? == keep(row)
    ensures |Collect(rows, shape)| == Count(rows, keep)
  {
    if rows != [] {
      var front, last := rows[..|rows| - 1], rows[|rows| - 1];
      CollectCount(front, shape, keep);
      assert rows == front + [last];
      FilterSnoc(front, last, keep);
    }
  }

  // ---------------------------------------------------------------- fetch_new_*

  /** The record carries a licence number that is not among the known ones. */
  predicate IsNew(known: set<string>, lead: Lead) {
    Present(lead.licenseNumber) && lead.licenseNumber.value !in known
  }

  /** No known licences were given: `existing is None or len(existing) == 0`. */
  predicate Unfiltered(existing: Option<set<string>>) {
    existing.None? || existing.value == {}
  }

  /** What `fetch_new_*` returns for the fetched records `all`. */
  function NewRecords(all: seq<Lead>, existing: Option<set<string>>): seq<Lead> {
    if Unfiltered(existing) then all else Filter(all, lead => IsNew(existing.value, lead))
  }

  /** With no known licences every fetched record is returned. */
  lemma NewRecordsUnfiltered(all: seq<Lead>, existing: Option<set<string>>)
    requires Unfiltered(existing)
    ensures NewRecords(all, existing) == all
  {
  }

  /** Otherwise a record is kept exactly when it has a non-empty licence number that is not known. */
  lemma NewRecordsIff(all: seq<Lead>, known: set<string>, lead: Lead)
    requires known != {}
    ensures lead in NewRecords(all, Some(known)) <==> lead in all && IsNew(known, lead)
  {
    if lead in all && IsNew(known, lead) {
      FilterComplete(all, lead => IsNew(known, lead), lead);
    }
    if lead in NewRecords(all, Some(known)) {
      FilterSound(all, lead => IsNew(known, lead), lead);
    }
  }

  /** The kept records are a subsequence of the fetched ones, in their original order. */
  lemma NewRecordsKeepOrder(all: seq<Lead>, existing: Option<set<string>>)
    ensures exists idx :: SubsequenceAt(NewRecords(all, existing), all, idx)
  {
    if Unfiltered(existing) {
      var idx := seq(|all|, k requires 0 <= k < |all| => k as nat);
      assert forall k :: 0 <= k < |idx| ==> idx[k] == k;
      assert SubsequenceAt(all, all, idx);
      assert NewRecords(all, existing) == all;
    } else {
      FilterIsSubsequence(all, lead => IsNew(existing.value, lead));
      assert NewRecords(all, existing) == Filter(all, lead => IsNew(existing.value, lead));
    }
  }

  // ---------------------------------------------------------------- address text

  /** `sub in (u + s)` whenever `sub in s`. */
  lemma {:induction false} ContainsAfter(u: string, s: string, sub: string)
    requires Contains(s, sub)
    ensures Contains(u + s, sub)
    decreases |u|
  {
    if u != [] {
      assert (u + s)[1..] == u[1..] + s;
      ContainsAfter(u[1..], s, sub);
    } else {
      assert u + s == s;
    }
  }

  /** Every joined part occurs in the joined text. */
  lemma {:induction false} JoinContains(sep: string, parts: seq<string>, i: nat)
    requires i < |parts|
    ensures Contains(Join(sep, parts), parts[i])
    decreases |parts|
  {
    var r := Join(sep, parts);
    if |parts| == 1 {
      ContainsAt(r, parts[0], 0);
    } else if i == 0 {
      assert r[0..|parts[0]|] == parts[0];
      ContainsAt(r, parts[0], 0);
    } else {
      JoinContains(sep, parts[1..], i - 1);
      ContainsAfter(parts[0] + sep, Join(sep, parts[1..]), parts[i]);
      assert r == (parts[0] + sep) + Join(sep, parts[1..]);
    }
  }

  /** Joining at least one non-empty part gives non-empty text. */
  lemma JoinNonEmpty(sep: string, parts: seq<string>)
    requires parts != [] && parts[0] != ""
    ensures Join(sep, parts) != ""
  {
  }

  /** `[p for p in cells if p]` */
  function PresentParts(cells: seq<Option<string>>): (r: seq<string>)
    ensures |r| <= |cells|
    ensures forall s :: s in r ==> s != ""
  {
    if cells == [] then []
    else (if Present(cells[0]) then [cells[0].value] else []) + PresentParts(cells[1..])
  }

  /** Every present cell's text is kept. */
  lemma {:induction false} PresentPartsKeep(cells: seq<Option<string>>, i: nat)
    requires i < |cells| && Present(cells[i])
    ensures cells[i].value in PresentParts(cells)
  {
    if i > 0 {
      PresentPartsKeep(cells[1..], i - 1);
    }
  }

  /** No part is kept when no cell is present. */
  lemma {:induction false} PresentPartsNone(cells: seq<Option<string>>)
    ensures PresentParts(cells) == [] <==> forall i :: 0 <= i < |cells| ==> !Present(cells[i])
  {
    if cells != [] {
      PresentPartsNone(cells[1..]);
      if PresentParts(cells) == [] {
        forall i | 0 <= i < |cells|
          ensures !Present(cells[i])
        {
          if i > 0 {
            assert cells[1..][i - 1] == cells[i];
          }
        }
      }
    }
  }
}
