/** The deduplicator: one pass over a batch that drops a record when its licence number was seen
    before, when its name and address were seen before in this batch, or when its address resembles
    one seen before; and a second, content-keyed pass that keeps the first record of each id. */
module Deduplication {
  import opened Text
  import opened Values
  import opened Seqs

  /** `ADDRESS_SIMILARITY_THRESHOLD`: a ratio at or above it makes two addresses similar. */
  const SimilarityThreshold: int := 90

  /** Above this many seen addresses only an exact match counts as similar. */
  const FuzzyLimit: nat := 1000

  /** `record.get('license_number', '').strip()` */
  function LicenseOf(r: Dict): string {
    Strip(TextOf(r, "license_number"))
  }

  /** `record.get('address', '').lower().strip()` */
  function AddressOf(r: Dict): string {
    Strip(Lower(TextOf(r, "address")))
  }

  /** `record.get('name', '').lower().strip()` */
  function NameOf(r: Dict): string {
    Strip(Lower(TextOf(r, "name")))
  }

  /** `f"{name}|{address}"` */
  function NameAddressKey(r: Dict): string {
    NameOf(r) + "|" + AddressOf(r)
  }

  /** `_is_similar_address`: the fuzzy ratio is a parameter. Beyond `FuzzyLimit` seen addresses the
      fuzzy comparison is skipped and only exact membership counts. */
  predicate Similar(address: string, existing: set<string>, ratio: (string, string) -> int) {
    if address == "" || existing == {} then false
    else if |existing| > FuzzyLimit then address in existing
    else exists e :: e in existing && ratio(address, e) >= SimilarityThreshold
  }

  /** Above the limit, even a perfect fuzzy match is not similar unless the address is there exactly. */
  lemma LargeSetsMatchExactly(address: string, existing: set<string>, ratio: (string, string) -> int, e: string)
    requires |existing| > FuzzyLimit && e in existing && ratio(address, e) == 100
    ensures Similar(address, existing, ratio) <==> address != "" && address in existing
  {
  }

  /** The three normalised fields the pass looks at. */
  datatype Entry = Entry(license: string, key: string, address: string)

  /** The fields as `remove_duplicates` computes them from a record. */
  function EntryOf(r: Dict): Entry {
    Entry(LicenseOf(r), NameAddressKey(r), AddressOf(r))
  }

  /** What the pass decides about one record. */
  datatype Verdict = Unique | LicenseDuplicate | NameAddressDuplicate | FuzzyDuplicate

  /** The three growing sets of the pass. */
  datatype Seen = Seen(licenses: set<string>, keys: set<string>, addresses: set<string>)

  /** The three checks, in their fixed order; the first that matches decides. */
  function Judge(seen: Seen, e: Entry, similar: (string, set<string>) -> bool): Verdict {
    if e.license != "" && e.license in seen.licenses then LicenseDuplicate
    else if e.key in seen.keys then NameAddressDuplicate
    else if e.address != "" && similar(e.address, seen.addresses) then FuzzyDuplicate
    else Unique
  }

  /** What the pass records about a record it has judged: its licence as soon as the first check
      passes, its key as soon as the second passes, its address only when the record is kept. */
  function Note(seen: Seen, e: Entry, v: Verdict): Seen {
    Seen(
      if v != LicenseDuplicate && e.license != "" then seen.licenses + {e.license} else seen.licenses,
      if v != LicenseDuplicate && v != NameAddressDuplicate then seen.keys + {e.key} else seen.keys,
      if v == Unique && e.address != "" then seen.addresses + {e.address} else seen.addresses)
  }

  /** The `duplicates` counters. */
  datatype Duplicates = Duplicates(license: nat, nameAddress: nat, fuzzyAddress: nat)

  function Total(d: Duplicates): nat {
    d.license + d.nameAddress + d.fuzzyAddress
  }

  /** `duplicates[kind] += 1` for a dropped record. */
  function CountDrop(d: Duplicates, v: Verdict): (r: Duplicates)
    ensures Total(r) == Total(d) + (if v == Unique then 0 else 1)
  {
    match v
    case Unique => d
    case LicenseDuplicate => d.(license := d.license + 1)
    case NameAddressDuplicate => d.(nameAddress := d.nameAddress + 1)
    case FuzzyDuplicate => d.(fuzzyAddress := d.fuzzyAddress + 1)
  }

  /** `_is_similar_address` for a given fuzzy ratio, as a value. */
  function SimilarUnder(ratio: (string, string) -> int): (string, set<string>) -> bool {
    (address, existing) => Similar(address, existing, ratio)
  }

  /** Everything the pass has built after a prefix of the batch. */
  datatype Outcome = Outcome(seen: Seen, verdicts: seq<Verdict>, unique: seq<Dict>, dups: Duplicates)

  /** The loop of `remove_duplicates` over `records`; the name+address set starts empty. */
  function Run(licenses: set<string>, addresses: set<string>, records: seq<Dict>, norm: Dict -> Entry, similar: (string, set<string>) -> bool): (o: Outcome)
    ensures |o.verdicts| == |records|
  {
    if records == [] then Outcome(Seen(licenses, {}, addresses), [], [], Duplicates(0, 0, 0))
    else
      var o := Run(licenses, addresses, records[..|records| - 1], norm, similar);
      var r := records[|records| - 1];
      var e := norm(r);
      var v := Judge(o.seen, e, similar);
      Outcome(Note(o.seen, e, v), o.verdicts + [v], o.unique + (if v == Unique then [r] else []), CountDrop(o.dups, v))
  }

  /** Running one more record extends the outcome by that record's verdict. */
  lemma RunSnoc(licenses: set<string>, addresses: set<string>, records: seq<Dict>, norm: Dict -> Entry, similar: (string, set<string>) -> bool, i: nat)
    requires i < |records|
    ensures var o := Run(licenses, addresses, records[..i], norm, similar);
      var v := Judge(o.seen, norm(records[i]), similar);
      Run(licenses, addresses, records[..i + 1], norm, similar) ==
        Outcome(Note(o.seen, norm(records[i]), v), o.verdicts + [v], o.unique + (if v == Unique then [records[i]] else []), CountDrop(o.dups, v))
  {
    assert records[..i + 1][..i] == records[..i];
  }

  /** The verdict on record `i` is the one the sets built from its predecessors give it. */
  lemma {:induction false} RunVerdictAt(licenses: set<string>, addresses: set<string>, records: seq<Dict>, norm: Dict -> Entry, similar: (string, set<string>) -> bool, i: nat)
    requires i < |records|
    ensures Run(licenses, addresses, records, norm, similar).verdicts[i] == Judge(Run(licenses, addresses, records[..i], norm, similar).seen, norm(records[i]), similar)
    decreases |records|
  {
    var n := |records| - 1;
    var init := records[..n];
    if i < n {
      RunVerdictAt(licenses, addresses, init, norm, similar, i);
      assert init[..i] == records[..i];
    }
  }

  /** The non-empty licences of `records`. */
  function LicensesOf(norm: Dict -> Entry, records: seq<Dict>): set<string> {
    if records == [] then {}
    else
      var lic := norm(records[|records| - 1]).license;
      LicensesOf(norm, records[..|records| - 1]) + (if lic != "" then {lic} else {})
  }

  /** `LicensesOf` holds exactly the non-empty licences that occur in `records`. */
  lemma {:induction false} LicensesOfMember(norm: Dict -> Entry, records: seq<Dict>, lic: string)
    ensures lic in LicensesOf(norm, records) <==> lic != "" && exists j :: 0 <= j < |records| && norm(records[j]).license == lic
    decreases |records|
  {
    if records != [] {
      var n := |records| - 1;
      var init := records[..n];
      LicensesOfMember(norm, init, lic);
      if j :| 0 <= j < n && norm(init[j]).license == lic {
        assert records[j] == init[j];
      }
      if j :| 0 <= j < n && norm(records[j]).license == lic {
        assert records[j] == init[j];
      }
    }
  }

  /** The licence set ends up holding the seed and every non-empty licence of the batch, including
      those of records dropped afterwards by the name+address or the fuzzy check. */
  lemma {:induction false} RunLicenses(licenses: set<string>, addresses: set<string>, records: seq<Dict>, norm: Dict -> Entry, similar: (string, set<string>) -> bool)
    ensures Run(licenses, addresses, records, norm, similar).seen.licenses == licenses + LicensesOf(norm, records)
    decreases |records|
  {
    if records != [] {
      RunLicenses(licenses, addresses, records[..|records| - 1], norm, similar);
    }
  }

  /** A licence already seen, in the seed or earlier in the batch, drops the record under `license`
      whatever the other checks would say; a new non-empty licence never does. */
  lemma LicenseChecksFirst(licenses: set<string>, addresses: set<string>, records: seq<Dict>, norm: Dict -> Entry, similar: (string, set<string>) -> bool, i: nat)
    requires i < |records| && norm(records[i]).license != ""
    ensures Run(licenses, addresses, records, norm, similar).verdicts[i] == LicenseDuplicate <==>
      norm(records[i]).license in licenses || exists j :: 0 <= j < i && norm(records[j]).license == norm(records[i]).license
  {
    RunVerdictAt(licenses, addresses, records, norm, similar, i);
    RunLicenses(licenses, addresses, records[..i], norm, similar);
    var lic := norm(records[i]).license;
    LicensesOfMember(norm, records[..i], lic);
    if j :| 0 <= j < i && norm(records[j]).license == lic {
      assert records[..i][j] == records[j];
    }
    if j :| 0 <= j < i && norm(records[..i][j]).license == lic {
      assert records[..i][j] == records[j];
    }
  }

  /** Whether `k` is the key of a record among `records` that passed the licence check. */
  predicate KeyRecorded(norm: Dict -> Entry, records: seq<Dict>, vs: seq<Verdict>, k: string)
    requires |vs| == |records|
  {
    exists j :: 0 <= j < |records| && vs[j] != LicenseDuplicate && norm(records[j]).key == k
  }

  /** One more judged record adds its key exactly when it passed the licence check. */
  lemma KeyRecordedSnoc(norm: Dict -> Entry, records: seq<Dict>, vs: seq<Verdict>, r: Dict, v: Verdict, k: string)
    requires |vs| == |records|
    ensures KeyRecorded(norm, records + [r], vs + [v], k) <==> KeyRecorded(norm, records, vs, k) || (v != LicenseDuplicate && norm(r).key == k)
  {
    var rs, ws := records + [r], vs + [v];
    if KeyRecorded(norm, records, vs, k) {
      var j :| 0 <= j < |records| && vs[j] != LicenseDuplicate && norm(records[j]).key == k;
      assert rs[j] == records[j] && ws[j] == vs[j];
    }
    if KeyRecorded(norm, rs, ws, k) {
      var j :| 0 <= j < |rs| && ws[j] != LicenseDuplicate && norm(rs[j]).key == k;
      if j < |records| {
        assert rs[j] == records[j] && ws[j] == vs[j];
      }
    }
    if v != LicenseDuplicate && norm(r).key == k {
      assert rs[|records|] == r && ws[|records|] == v;
    }
  }

  /** The name+address set holds the key of every record that passed the licence check: it starts
      empty on each call, and a record dropped by the fuzzy check has its key recorded already. */
  lemma {:induction false} RunKeys(licenses: set<string>, addresses: set<string>, records: seq<Dict>, norm: Dict -> Entry, similar: (string, set<string>) -> bool, k: string)
    ensures var o := Run(licenses, addresses, records, norm, similar); k in o.seen.keys <==> KeyRecorded(norm, records, o.verdicts, k)
    decreases |records|
  {
    if records != [] {
      var n := |records| - 1;
      var init := records[..n];
      RunKeys(licenses, addresses, init, norm, similar, k);
      var o0 := Run(licenses, addresses, init, norm, similar);
      var e := norm(records[n]);
      var v := Judge(o0.seen, e, similar);
      assert records == init + [records[n]];
      KeyRecordedSnoc(norm, init, o0.verdicts, records[n], v, k);
    }
  }

  /** Whether `a` is the non-empty address of a kept record among `records`. */
  predicate AddressKept(norm: Dict -> Entry, records: seq<Dict>, vs: seq<Verdict>, a: string)
    requires |vs| == |records|
  {
    a != "" && exists j :: 0 <= j < |records| && vs[j] == Unique && norm(records[j]).address == a
  }

  /** One more judged record adds its address exactly when it is kept and the address is non-empty. */
  lemma AddressKeptSnoc(norm: Dict -> Entry, records: seq<Dict>, vs: seq<Verdict>, r: Dict, v: Verdict, a: string)
    requires |vs| == |records|
    ensures AddressKept(norm, records + [r], vs + [v], a) <==> AddressKept(norm, records, vs, a) || (a != "" && v == Unique && norm(r).address == a)
  {
    var rs, ws := records + [r], vs + [v];
    if AddressKept(norm, records, vs, a) {
      var j :| 0 <= j < |records| && vs[j] == Unique && norm(records[j]).address == a;
      assert rs[j] == records[j] && ws[j] == vs[j];
    }
    if AddressKept(norm, rs, ws, a) {
      var j :| 0 <= j < |rs| && ws[j] == Unique && norm(rs[j]).address == a;
      if j < |records| {
        assert rs[j] == records[j] && ws[j] == vs[j];
      }
    }
    if a != "" && v == Unique && norm(r).address == a {
      assert rs[|records|] == r && ws[|records|] == v;
    }
  }

  /** The address set holds the seed and the non-empty address of every record kept. */
  lemma {:induction false} RunAddresses(licenses: set<string>, addresses: set<string>, records: seq<Dict>, norm: Dict -> Entry, similar: (string, set<string>) -> bool, a: string)
    ensures var o := Run(licenses, addresses, records, norm, similar); a in o.seen.addresses <==> a in addresses || AddressKept(norm, records, o.verdicts, a)
    decreases |records|
  {
    if records != [] {
      var n := |records| - 1;
      var init := records[..n];
      RunAddresses(licenses, addresses, init, norm, similar, a);
      var o0 := Run(licenses, addresses, init, norm, similar);
      var v := Judge(o0.seen, norm(records[n]), similar);
      assert records == init + [records[n]];
      AddressKeptSnoc(norm, init, o0.verdicts, records[n], v, a);
    }
  }

  /** A record with an empty address is never dropped by the fuzzy check. */
  lemma EmptyAddressNeverFuzzy(licenses: set<string>, addresses: set<string>, records: seq<Dict>, norm: Dict -> Entry, similar: (string, set<string>) -> bool, i: nat)
    requires i < |records| && norm(records[i]).address == ""
    ensures Run(licenses, addresses, records, norm, similar).verdicts[i] != FuzzyDuplicate
  {
    RunVerdictAt(licenses, addresses, records, norm, similar, i);
  }

  /** The positions of the kept records, in increasing order. */
  function KeptIndices(vs: seq<Verdict>): (idx: seq<nat>)
    ensures forall k :: 0 <= k < |idx| ==> idx[k] < |vs| && vs[idx[k]] == Unique
    ensures forall k, l :: 0 <= k < l < |idx| ==> idx[k] < idx[l]
    ensures forall i :: 0 <= i < |vs| && vs[i] == Unique ==> i in idx
  {
    if vs == [] then []
    else KeptIndices(vs[..|vs| - 1]) + (if vs[|vs| - 1] == Unique then [|vs| - 1] else [])
  }

  /** The records kept are the input records judged `Unique`, in their original order. */
  lemma {:induction false} RunKeepsOrder(licenses: set<string>, addresses: set<string>, records: seq<Dict>, norm: Dict -> Entry, similar: (string, set<string>) -> bool)
    ensures var o := Run(licenses, addresses, records, norm, similar); SubsequenceAt(o.unique, records, KeptIndices(o.verdicts))
    decreases |records|
  {
    if records != [] {
      var n := |records| - 1;
      var init := records[..n];
      RunKeepsOrder(licenses, addresses, init, norm, similar);
      var o0 := Run(licenses, addresses, init, norm, similar);
      var o := Run(licenses, addresses, records, norm, similar);
      assert o.verdicts[..n] == o0.verdicts;
      var idx0 := KeptIndices(o0.verdicts);
      forall k | 0 <= k < |idx0|
        ensures o.unique[k] == records[idx0[k]]
      {
        assert o.unique[k] == o0.unique[k] && records[idx0[k]] == init[idx0[k]];
      }
    }
  }

  /** Every record is either kept or counted under exactly one duplicate counter. */
  lemma {:induction false} RunTotal(licenses: set<string>, addresses: set<string>, records: seq<Dict>, norm: Dict -> Entry, similar: (string, set<string>) -> bool)
    ensures Total(Run(licenses, addresses, records, norm, similar).dups) + |Run(licenses, addresses, records, norm, similar).unique| == |records|
    decreases |records|
  {
    if records != [] {
      var init := records[..|records| - 1];
      RunTotal(licenses, addresses, init, norm, similar);
      var o0 := Run(licenses, addresses, init, norm, similar);
      var v := Run(licenses, addresses, records, norm, similar).verdicts[|records| - 1];
      assert Run(licenses, addresses, records, norm, similar).dups == CountDrop(o0.dups, v);
      assert |Run(licenses, addresses, records, norm, similar).unique| == |o0.unique| + (if v == Unique then 1 else 0);
    }
  }

  /** Counting one more drop keeps the counters equal to the verdict tallies. */
  lemma CountDropTally(d: Duplicates, m: multiset<Verdict>, v: Verdict)
    requires d == Duplicates(m[LicenseDuplicate], m[NameAddressDuplicate], m[FuzzyDuplicate])
    ensures var m' := m + multiset{v};
      CountDrop(d, v) == Duplicates(m'[LicenseDuplicate], m'[NameAddressDuplicate], m'[FuzzyDuplicate])
  {
  }

  /** The counters count the verdicts: each drop is counted once, under the check that made it. */
  lemma {:induction false} RunCounts(licenses: set<string>, addresses: set<string>, records: seq<Dict>, norm: Dict -> Entry, similar: (string, set<string>) -> bool)
    ensures var o := Run(licenses, addresses, records, norm, similar); var m := multiset(o.verdicts);
      o.dups == Duplicates(m[LicenseDuplicate], m[NameAddressDuplicate], m[FuzzyDuplicate]) && |o.unique| == m[Unique]
    decreases |records|
  {
    if records != [] {
      var n := |records| - 1;
      RunCounts(licenses, addresses, records[..n], norm, similar);
      var o0 := Run(licenses, addresses, records[..n], norm, similar);
      var o := Run(licenses, addresses, records, norm, similar);
      var v := o.verdicts[n];
      assert o.verdicts == o0.verdicts + [v] && o.dups == CountDrop(o0.dups, v);
      assert |o.unique| == |o0.unique| + (if v == Unique then 1 else 0);
      var m0 := multiset(o0.verdicts);
      assert multiset(o.verdicts) == m0 + multiset{v};
      CountDropTally(o0.dups, m0, v);
    }
  }

  /** `Deduplicator`: the seed sets loaded once from the spreadsheet, and the two passes. */
  class Deduplicator {
    /** `sheets_manager is not None` */
    const hasSheets: bool
    var existingLicenses: set<string>
    var existingAddresses: set<string>
    var initialized: bool

    constructor(hasSheets: bool)
      ensures this.hasSheets == hasSheets
      ensures existingLicenses == {} && existingAddresses == {} && !initialized
    {
      this.hasSheets := hasSheets;
      existingLicenses := {};
      existingAddresses := {};
      initialized := false;
    }

    /** `_load_existing_data`. The two spreadsheet reads are given as their outcomes, `None` when the
        read raises; the address read only happens after the licence read succeeded. Loading is
        attempted at most once: a failure still marks the instance initialised. */
    method LoadExistingData(licenseSeed: Option<set<string>>, addressSeed: Option<set<string>>)
      modifies this
      ensures old(initialized) || !hasSheets ==>
        initialized == old(initialized) && existingLicenses == old(existingLicenses) && existingAddresses == old(existingAddresses)
      ensures !old(initialized) && hasSheets ==> initialized
      ensures !old(initialized) && hasSheets ==>
        existingLicenses == (if licenseSeed.Some? then licenseSeed.value else old(existingLicenses))
      ensures !old(initialized) && hasSheets ==>
        existingAddresses == (if licenseSeed.Some? && addressSeed.Some? then addressSeed.value else old(existingAddresses))
    {
      if initialized || !hasSheets {
        return;
      }
      if licenseSeed.None? {
        initialized := true;
        return;
      }
      existingLicenses := licenseSeed.value;
      if addressSeed.None? {
        initialized := true;
        return;
      }
      existingAddresses := addressSeed.value;
      initialized := true;
    }

    /** `_is_similar_address`: stops at the first seen address whose ratio reaches the threshold. */
    method IsSimilarAddress(address: string, existing: set<string>, ratio: (string, string) -> int) returns (similar: bool)
      ensures similar == Similar(address, existing, ratio)
    {
      if address == "" || existing == {} {
        return false;
      }
      if |existing| > FuzzyLimit {
        return address in existing;
      }
      var rest := existing;
      while rest != {}
        invariant rest <= existing
        invariant forall e :: e in existing && e !in rest ==> ratio(address, e) < SimilarityThreshold
        decreases |rest|
      {
        var e :| e in rest;
        if ratio(address, e) >= SimilarityThreshold {
          return true;
        }
        rest := rest - {e};
      }
      return false;
    }

    /** `remove_duplicates`. An empty batch returns at once, before any loading. Otherwise the seed
        sets are loaded (at most once per instance) and copied, and the pass runs from them; the
        instance's seed sets are not changed by the pass. Returns the kept records and the counters. */
    method RemoveDuplicates(records: seq<Dict>, licenseSeed: Option<set<string>>, addressSeed: Option<set<string>>,
                            ratio: (string, string) -> int)
      returns (unique: seq<Dict>, dups: Duplicates)
      modifies this
      ensures records == [] ==> unique == [] && dups == Duplicates(0, 0, 0)
      ensures records == [] ==>
        initialized == old(initialized) && existingLicenses == old(existingLicenses) && existingAddresses == old(existingAddresses)
      ensures records != [] ==> initialized == (old(initialized) || hasSheets)
      ensures records != [] && !old(initialized) && hasSheets ==>
        existingLicenses == (if licenseSeed.Some? then licenseSeed.value else old(existingLicenses))
        && existingAddresses == (if licenseSeed.Some? && addressSeed.Some? then addressSeed.value else old(existingAddresses))
      ensures records != [] && (old(initialized) || !hasSheets) ==>
        existingLicenses == old(existingLicenses) && existingAddresses == old(existingAddresses)
      ensures var o := Run(existingLicenses, existingAddresses, records, EntryOf, SimilarUnder(ratio)); unique == o.unique && dups == o.dups
    {
      if records == [] {
        return [], Duplicates(0, 0, 0);
      }
      LoadExistingData(licenseSeed, addressSeed);
      unique, dups := Pass(existingLicenses, existingAddresses, records, ratio);
    }

    /** The loop of `remove_duplicates`, from copies of the seed sets and an empty name+address set. */
    method Pass(licenses: set<string>, addresses: set<string>, records: seq<Dict>, ratio: (string, string) -> int)
      returns (unique: seq<Dict>, dups: Duplicates)
      ensures var o := Run(licenses, addresses, records, EntryOf, SimilarUnder(ratio)); unique == o.unique && dups == o.dups
    {
      var seen := Seen(licenses, {}, addresses);
      unique := [];
      dups := Duplicates(0, 0, 0);
      ghost var verdicts: seq<Verdict> := [];
      var i := 0;
      while i < |records|
        invariant 0 <= i <= |records|
        invariant Run(licenses, addresses, records[..i], EntryOf, SimilarUnder(ratio)) == Outcome(seen, verdicts, unique, dups)
      {
        var v;
        var e := EntryOf(records[i]);
        seen, unique, dups, v := CheckRecord(seen, unique, dups, records[i], e, ratio);
        RunSnoc(licenses, addresses, records, EntryOf, SimilarUnder(ratio), i);
        verdicts := verdicts + [v];
        i := i + 1;
      }
      assert records[..i] == records;
    }

    /** The body of the `remove_duplicates` loop for one record, whose licence, name+address key and
        address are `e`: the three checks in order, the sets updated as each check passes, and the
        record kept or counted under the check that dropped it. */
    method CheckRecord(seen: Seen, unique: seq<Dict>, dups: Duplicates, record: Dict, e: Entry, ratio: (string, string) -> int)
      returns (seen': Seen, unique': seq<Dict>, dups': Duplicates, v: Verdict)
      ensures v == Judge(seen, e, SimilarUnder(ratio))
      ensures seen' == Note(seen, e, v)
      ensures unique' == unique + (if v == Unique then [record] else [])
      ensures dups' == CountDrop(dups, v)
    {
      var licenseNumber, key, address := e.license, e.key, e.address;
      seen', unique', dups' := seen, unique, dups;
      if licenseNumber != "" && licenseNumber in seen.licenses {
        dups' := dups.(license := dups.license + 1);
        v := LicenseDuplicate;
      } else {
        if licenseNumber != "" {
          seen' := seen'.(licenses := seen'.licenses + {licenseNumber});
        }
        if key in seen.keys {
          dups' := dups.(nameAddress := dups.nameAddress + 1);
          v := NameAddressDuplicate;
        } else {
          seen' := seen'.(keys := seen'.keys + {key});
          var similar := false;
          if address != "" {
            similar := IsSimilarAddress(address, seen.addresses, ratio);
          }
          if similar {
            dups' := dups.(fuzzyAddress := dups.fuzzyAddress + 1);
            v := FuzzyDuplicate;
          } else {
            if address != "" {
              seen' := seen'.(addresses := seen'.addresses + {address});
            }
            unique' := unique + [record];
            v := Unique;
          }
        }
      }
    }

    /** `dedupe_within_batch`: keeps the first record of each `generate_record_id`, in order. The
        caller passes `r => Helpers.RecordId(r, md5Prefix)` as `recordId`. */
    method DedupeWithinBatch(records: seq<Dict>, recordId: Dict -> string) returns (unique: seq<Dict>)
      ensures unique == FirstOfEach(records, recordId)
    {
      if records == [] {
        return [];
      }
      unique := [];
      var seenIds: set<string> := {};
      var i := 0;
      while i < |records|
        invariant 0 <= i <= |records|
        invariant unique == FirstOfEach(records[..i], recordId)
        invariant seenIds == IdsOf(records[..i], recordId)
      {
        assert records[..i + 1][..i] == records[..i];
        var id := recordId(records[i]);
        if id !in seenIds {
          seenIds := seenIds + {id};
          unique := unique + [records[i]];
        }
        i := i + 1;
      }
      assert records[..i] == records;
    }
  }

  /** The ids of `records`. */
  function IdsOf(records: seq<Dict>, recordId: Dict -> string): (ids: set<string>)
    ensures |ids| <= |records|
  {
    if records == [] then {}
    else IdsOf(records[..|records| - 1], recordId) + {recordId(records[|records| - 1])}
  }

  /** Each record's id is in `IdsOf`. */
  lemma {:induction false} IdsOfSound(records: seq<Dict>, recordId: Dict -> string, i: nat)
    requires i < |records|
    ensures recordId(records[i]) in IdsOf(records, recordId)
    decreases |records|
  {
    var n := |records| - 1;
    if i < n {
      IdsOfSound(records[..n], recordId, i);
      assert records[..n][i] == records[i];
    }
  }

  /** Each id in `IdsOf` is the id of some record. */
  lemma {:induction false} IdsOfComplete(records: seq<Dict>, recordId: Dict -> string, id: string)
    requires id in IdsOf(records, recordId)
    ensures exists i :: 0 <= i < |records| && recordId(records[i]) == id
    decreases |records|
  {
    var n := |records| - 1;
    if recordId(records[n]) != id {
      IdsOfComplete(records[..n], recordId, id);
      var i :| 0 <= i < n && recordId(records[..n][i]) == id;
      assert records[..n][i] == records[i];
    }
  }

  /** The records of `records` whose id no earlier record has, in order. */
  function FirstOfEach(records: seq<Dict>, recordId: Dict -> string): (unique: seq<Dict>)
    ensures |unique| <= |records|
  {
    if records == [] then []
    else
      var init := records[..|records| - 1];
      var r := records[|records| - 1];
      FirstOfEach(init, recordId) + (if recordId(r) in IdsOf(init, recordId) then [] else [r])
  }

  /** Every id of the batch is kept. */
  lemma {:induction false} FirstOfEachIds(records: seq<Dict>, recordId: Dict -> string)
    ensures IdsOf(FirstOfEach(records, recordId), recordId) == IdsOf(records, recordId)
    decreases |records|
  {
    if records != [] {
      var n := |records| - 1;
      var init := records[..n];
      FirstOfEachIds(init, recordId);
      var u0 := FirstOfEach(init, recordId);
      var r := records[n];
      assert records[..n] == init;
      if recordId(r) !in IdsOf(init, recordId) {
        assert (u0 + [r])[..|u0|] == u0;
        assert IdsOf(u0 + [r], recordId) == IdsOf(u0, recordId) + {recordId(r)};
      } else {
        assert FirstOfEach(records, recordId) == u0;
        assert IdsOf(u0, recordId) == IdsOf(init, recordId);
        assert IdsOf(records, recordId) == IdsOf(init, recordId) + {recordId(r)};
        assert IdsOf(records, recordId) == IdsOf(init, recordId);
      }
    }
  }

  /** The kept records have pairwise distinct ids. */
  lemma {:induction false} FirstOfEachDistinct(records: seq<Dict>, recordId: Dict -> string)
    ensures var unique := FirstOfEach(records, recordId);
      forall k, l :: 0 <= k < l < |unique| ==> recordId(unique[k]) != recordId(unique[l])
    decreases |records|
  {
    if records != [] {
      var n := |records| - 1;
      var init := records[..n];
      var r := records[n];
      FirstOfEachDistinct(init, recordId);
      var u0 := FirstOfEach(init, recordId);
      var id := recordId(r);
      if id !in IdsOf(init, recordId) {
        FirstOfEachIds(init, recordId);
        var unique := u0 + [r];
        forall k, l | 0 <= k < l < |unique|
          ensures recordId(unique[k]) != recordId(unique[l])
        {
          if l == |u0| {
            IdsOfSound(u0, recordId, k);
          }
        }
      }
    }
  }

  /** The positions of the records `FirstOfEach` keeps. */
  ghost function FirstIndices(records: seq<Dict>, recordId: Dict -> string): (idx: seq<nat>)
    ensures forall k :: 0 <= k < |idx| ==> idx[k] < |records|
    ensures forall k, l :: 0 <= k < l < |idx| ==> idx[k] < idx[l]
  {
    if records == [] then []
    else
      var init := records[..|records| - 1];
      FirstIndices(init, recordId)
        + (if recordId(records[|records| - 1]) in IdsOf(init, recordId) then [] else [|records| - 1])
  }

  /** `dedupe_within_batch` keeps a subsequence of the batch in the original order, and each kept
      record is the first of the batch with its id. */
  lemma {:induction false} FirstOfEachOrder(records: seq<Dict>, recordId: Dict -> string)
    ensures var idx := FirstIndices(records, recordId);
      && SubsequenceAt(FirstOfEach(records, recordId), records, idx)
      && forall k, j :: 0 <= k < |idx| && 0 <= j < idx[k] ==>
           recordId(records[j]) != recordId(records[idx[k]])
    decreases |records|
  {
    if records != [] {
      var n := |records| - 1;
      var init, r := records[..n], records[n];
      FirstOfEachOrder(init, recordId);
      var idx0 := FirstIndices(init, recordId);
      var u0 := FirstOfEach(init, recordId);
      assert records == init + [r];
      SubsequenceSnoc(u0, init, idx0, r);
      var idx := FirstIndices(records, recordId);
      var id := recordId(r);
      forall k, j | 0 <= k < |idx| && 0 <= j < idx[k]
        ensures recordId(records[j]) != recordId(records[idx[k]])
      {
        assert records[j] == init[j];
        if k < |idx0| {
          assert idx[k] == idx0[k] && records[idx0[k]] == init[idx0[k]];
        } else {
          assert id !in IdsOf(init, recordId) && idx[k] == n;
          IdsOfSound(init, recordId, j);
        }
      }
    }
  }
}
