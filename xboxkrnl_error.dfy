/** The kernel export `RtlNtStatusToDosError` of src/xenia/kernel/xboxkrnl/xboxkrnl_error.cc,
    which translates an NTSTATUS (or an HRESULT carrying a Win32 code) into the Win32 error
    code a guest program sees. The bit layouts are those of [MS-ERREF], Windows Error Codes:
    section 2.1 (HRESULT), section 2.2 (Win32 error codes) and section 2.3 (NTSTATUS).

    `NtStatusToDosError` is the specification: it finds a status's entry through the one
    table that covers it, without walking the list. `RtlNtStatusToDosError` is the source's
    procedure, with its early returns and its walk along the table list, proved equal to
    the specification for every 32-bit input. The lemmas after it state the translation's
    rules for whole classes of statuses and check it against rows of the tables. */
module XboxkrnlError {
  import opened ErrorTables

  datatype Option<T> = None | Some(value: T)

  /** ERROR_MR_MID_NOT_FOUND: the answer for a status the translator does not know. */
  const ErrorMrMidNotFound: u32 := 317

  // The masks of the source, on a word held as an integer in [0, 2^32).

  /** `status & 0x20000000` is set: the customer bit C of an NTSTATUS (section 2.3 of
      [MS-ERREF]), a code defined outside Microsoft that has no Win32 equivalent. */
  predicate IsCustomerCode(status: u32): (b: bool)
    ensures b <==> 0x2000_0000 <= status % 0x4000_0000
  {
    (status / 0x2000_0000) % 2 == 1
  }

  /** `status >> 16`: severity, C and N bits, and facility. */
  function UpperHalf(status: u32): (r: u32)
    ensures r <= 0xFFFF
    ensures r as int * 0x1_0000 <= status as int < (r as int + 1) * 0x1_0000
  {
    status / 0x1_0000
  }

  /** `status & 0xFFFF`: the code within the facility. */
  function LowHalf(status: u32): (r: u32)
    ensures r <= 0xFFFF
    ensures status as int == UpperHalf(status) as int * 0x1_0000 + r as int
  {
    status % 0x1_0000
  }

  /** `(status & 0xF0000000) >> 28`: the severity bits, C and N. */
  function TopNibble(status: u32): (r: u32)
    ensures r <= 0xF
    ensures r as int * 0x1000_0000 <= status as int < (r as int + 1) * 0x1000_0000
  {
    status / 0x1000_0000
  }

  /** `status & ~0x30000000`: the word with bit 29 (C) and bit 28 (N) cleared. */
  function ClearCustomerAndNBits(status: u32): (r: u32)
    ensures TopNibble(r) == TopNibble(status) / 4 * 4
    ensures r % 0x1000_0000 == status % 0x1000_0000
  {
    status - ((status / 0x1000_0000) % 4) * 0x1000_0000
  }

  /** An HRESULT with S = 1 and facility 7, FACILITY_WIN32 (section 2.1 of [MS-ERREF]):
      a Win32 error code wrapped in an HRESULT. */
  predicate IsWin32HResult(status: u32): (b: bool)
    ensures b <==> 0x8007_0000 <= status < 0x8008_0000
  {
    UpperHalf(status) == 0x8007
  }

  /** The status the table walk uses: one whose top nibble is 0xD loses its N bit and is
      read as 0xCxxxxxxx; every other status is left alone. */
  function Normalize(status: u32): (r: u32)
    ensures TopNibble(status) == 0xD ==> r as int == status as int - 0x1000_0000
    ensures TopNibble(status) != 0xD ==> r == status
  {
    if TopNibble(status) == 0xD then ClearCustomerAndNBits(status) else status
  }

  /** Some table of the list covers `status`. */
  ghost predicate Covered(tables: seq<ErrorLookupTable>, status: u32)
  {
    exists k :: 0 <= k < |tables| && tables[k].Covers(status)
  }

  /** The entry for `status` in the table that covers it, unless no table covers it or
      the entry is a zero hole. The table is fixed by the covering alone; the order of
      the list plays no part. */
  ghost function TableEntry(tables: seq<ErrorLookupTable>, status: u32): (r: Option<u32>)
    ensures r.Some? ==> Covered(tables, status) && r.value != 0
  {
    if Covered(tables, status) then
      var k :| 0 <= k < |tables| && tables[k].Covers(status);
      var entry := tables[k].entries[(status - tables[k].baseCode) as int];
      if entry == 0 then None else Some(entry)
    else
      None
  }

  /** The Win32 code `RtlNtStatusToDosError` returns for `sourceStatus`. */
  ghost function NtStatusToDosError(sourceStatus: u32): (r: u32)
    ensures r == 0 ==> LowHalf(sourceStatus) == 0
  {
    if sourceStatus == 0 || IsCustomerCode(sourceStatus) then
      sourceStatus
    else if IsWin32HResult(sourceStatus) then
      LowHalf(sourceStatus)
    else
      var status := Normalize(sourceStatus);
      match TableEntry(ErrorTableList, status)
      case Some(entry) => entry
      case None =>
        if UpperHalf(status) == 0xC001 then LowHalf(status) else ErrorMrMidNotFound
  }

  /** When table `k` covers `status`, the specified lookup reads that table's entry. */
  lemma TableEntryAt(tables: seq<ErrorLookupTable>, k: nat, status: u32)
    requires WellOrdered(tables)
    requires k < |tables| && tables[k].Covers(status)
    ensures var entry := tables[k].entries[(status - tables[k].baseCode) as int];
      TableEntry(tables, status) == if entry == 0 then None else Some(entry)
  {
    forall j | 0 <= j < |tables| && tables[j].Covers(status)
      ensures j == k
    {
      CoveringTableUnique(tables, j, k, status);
    }
  }

  /** A status at or past the end of table `k` and below the base of the next table is
      covered by no table. */
  lemma GapNotCovered(tables: seq<ErrorLookupTable>, k: nat, status: u32)
    requires WellOrdered(tables)
    requires k + 1 < |tables|
    requires tables[k].End() <= status as int < tables[k + 1].baseCode as int
    ensures !Covered(tables, status)
  {
    BelowBaseNotCovered(tables, k + 1, status);
    forall i | 0 <= i < k
      ensures !tables[i].Covers(status)
    {
      OrderedPairwise(tables, i, k);
    }
  }

  /** `RtlNtStatusToDosError` as the source writes it: the pass-through, HRESULT and
      0xD-prefix rules, then the walk along the table list that stops at the sentinel, at
      the first table whose base exceeds the status, or at a zero hole, and the fallbacks
      after it. Every entry it reads lies inside its table. */
  method RtlNtStatusToDosError(sourceStatus: u32) returns (result: u32)
    ensures result == NtStatusToDosError(sourceStatus)
  {
    var status := sourceStatus;
    if status == 0 || IsCustomerCode(status) {
      return status;
    }
    if IsWin32HResult(status) {
      return LowHalf(status);
    }
    if TopNibble(status) == 0xD {
      status := ClearCustomerAndNBits(status);
    }

    TableListWellOrdered();
    var i := 0;
    while ErrorTableList[i].baseCode != 0
      invariant 0 <= i < |ErrorTableList|
      invariant forall k :: 0 <= k < i ==> !ErrorTableList[k].Covers(status)
      decreases |ErrorTableList| - i
    {
      var table := ErrorTableList[i];
      if status < table.baseCode {
        BelowBaseNotCovered(ErrorTableList, i, status);
        break;
      }
      var index := status - table.baseCode;
      if (index as int) < table.Count() {
        var entry := table.entries[index as int];
        TableEntryAt(ErrorTableList, i, status);
        if entry == 0 {
          break;
        }
        return entry;
      }
      i := i + 1;
    }
    assert TableEntry(ErrorTableList, status) == None;

    if UpperHalf(status) == 0xC001 {
      return LowHalf(status);
    }
    return ErrorMrMidNotFound;
  }

  // The rules of the translation, stated for whole classes of statuses.

  /** A zero status, and every status with the customer bit set, comes back unchanged;
      this rule is tried before every other. */
  lemma PassThrough(status: u32)
    requires status == 0 || IsCustomerCode(status)
    ensures NtStatusToDosError(status) == status
  {
  }

  /** An HRESULT of facility FACILITY_WIN32 yields the Win32 code in its low 16 bits. */
  lemma Win32HResultYieldsCode(status: u32)
    requires UpperHalf(status) == 0x8007
    ensures NtStatusToDosError(status) == LowHalf(status)
    ensures NtStatusToDosError(status) <= 0xFFFF
  {
  }

  /** The N bit of a 0xD status is ignored: 0xDxxxxxxx translates as 0xCxxxxxxx does. */
  lemma DPrefixReadsAsC(low: u32)
    requires low < 0x1000_0000
    ensures NtStatusToDosError(0xD000_0000 + low) == NtStatusToDosError(0xC000_0000 + low)
  {
    var d, c := 0xD000_0000 + low, 0xC000_0000 + low;
    assert !IsCustomerCode(d) && !IsCustomerCode(c);
    assert !IsWin32HResult(d) && !IsWin32HResult(c);
    assert Normalize(d) == c == Normalize(c);
  }

  /** A status that table `k` covers is translated by that table alone: to its entry, or
      to ERROR_MR_MID_NOT_FOUND when the entry is a zero hole. None of the earlier rules
      applies to a covered status, and the entry read lies inside the table. */
  lemma CoveredStatusYieldsEntry(k: nat, status: u32)
    requires k < |ErrorTableList| && ErrorTableList[k].Covers(status)
    ensures var entry := ErrorTableList[k].entries[(status - ErrorTableList[k].baseCode) as int];
      NtStatusToDosError(status) == if entry != 0 then entry else ErrorMrMidNotFound
  {
    CoveredStatusIsPlain(k, status);
    TableListWellOrdered();
    TableEntryAt(ErrorTableList, k, status);
  }

  /** No status a table covers is zero, has the customer bit, is a FACILITY_WIN32
      HRESULT, starts with 0xD or has upper half 0xC001. */
  lemma CoveredStatusIsPlain(k: nat, status: u32)
    requires k < |ErrorTableList| && ErrorTableList[k].Covers(status)
    ensures status != 0 && !IsCustomerCode(status) && !IsWin32HResult(status)
    ensures TopNibble(status) != 0xD && UpperHalf(status) != 0xC001
  {
    TableCounts();
    assert
      || 0x103 <= status < 0x2000_0000
      || 0x4000_0000 <= status < 0x6000_0000
      || 0x8000_0000 <= status < 0x8007_0000
      || 0x8008_0000 <= status < 0xA000_0000
      || 0xC000_0000 <= status < 0xC001_0000
      || 0xC002_0000 <= status < 0xD000_0000
    by {
      if k < 4 {} else if k < 8 {} else if k < 12 {} else {}
    }
  }

  /** Every status of upper half 0xC001 (or 0xD001, read as 0xC001) lies in the gap between
      the tables based at 0xC0000202 and 0xC0020001, so it yields its low 16 bits. */
  lemma FacilityC001YieldsCode(status: u32)
    requires UpperHalf(status) == 0xC001 || UpperHalf(status) == 0xD001
    ensures NtStatusToDosError(status) == LowHalf(status)
  {
    TableListWellOrdered();
    TableCounts();
    GapNotCovered(ErrorTableList, 8, Normalize(status));
  }

  /** Every status between the end of the table based at 0xC0000001 and the base of the
      table at 0xC0000202 (0xD statuses included) is unknown: it yields
      ERROR_MR_MID_NOT_FOUND. */
  lemma GapYieldsNotFound(status: u32)
    requires 0xC000_019C <= Normalize(status) < 0xC000_0202
    ensures NtStatusToDosError(status) == ErrorMrMidNotFound
  {
    TableListWellOrdered();
    TableCounts();
    GapNotCovered(ErrorTableList, 7, Normalize(status));
  }

  /** The translation yields zero (ERROR_SUCCESS) exactly for the zero status and for the
      three statuses whose low half is zero under the HRESULT and 0xC001 rules. */
  lemma ZeroResultIff(status: u32)
    ensures NtStatusToDosError(status) == 0 <==>
      status in {0, 0x8007_0000, 0xC001_0000, 0xD001_0000}
  {
    if status in {0xC001_0000, 0xD001_0000} {
      FacilityC001YieldsCode(status);
    }
  }

  // Rows of the tables and the fallbacks, checked on single statuses.

  /** Statuses found in the small tables: the first status of the first table, a row of
      the 0x40000002 table and the last row of the last table. */
  lemma SmallTableExamples()
    ensures NtStatusToDosError(0x0000_0103) == 0x3E5
    ensures NtStatusToDosError(0x4000_0008) == 0x460
    ensures NtStatusToDosError(0xC098_0008) == 0x37
  {
    assert NtStatusToDosError(0x0000_0103) == 0x3E5 by {
      CoveredStatusYieldsEntry(0, 0x0000_0103);
    }
    assert NtStatusToDosError(0x4000_0008) == 0x460 by {
      CoveredStatusYieldsEntry(1, 0x4000_0008);
    }
    CoveredStatusYieldsEntry(13, 0xC098_0008);
  }

  /** A status found in the first block of the largest table, based at 0xC0000001. */
  lemma LargeTableExample()
    ensures NtStatusToDosError(0xC000_0005) == 0x3E6
  {
    assert ErrorTableList[7] == ErrorLookupTable(0xC000_0001, TableC0000001);
    assert TableC0000001[4] == 0x3E6;
    CoveredStatusYieldsEntry(7, 0xC000_0005);
  }

  /** A status found in the second block of the largest table. */
  lemma LargeTableSecondBlockExample()
    ensures NtStatusToDosError(0xC000_0022) == 5
  {
    assert ErrorTableList[7] == ErrorLookupTable(0xC000_0001, TableC0000001);
    assert TableC0000001[0x21] == 5;
    CoveredStatusYieldsEntry(7, 0xC000_0022);
  }

  /** A 0xD status is read through its 0xC twin in the largest table. */
  lemma DPrefixExample()
    ensures NtStatusToDosError(0xD000_0005) == 0x3E6
  {
    LargeTableExample();
    DPrefixReadsAsC(5);
  }

  /** Statuses decided without a table entry: a customer code, a FACILITY_WIN32 HRESULT,
      a zero hole, a 0xC001 status and a status in the gap between two tables. */
  lemma FallbackExamples()
    ensures NtStatusToDosError(0xE000_0001) == 0xE000_0001
    ensures NtStatusToDosError(0x8007_0005) == 5
    ensures NtStatusToDosError(0xC000_000C) == ErrorMrMidNotFound
    ensures NtStatusToDosError(0xC001_0005) == 5
    ensures NtStatusToDosError(0xC000_0200) == ErrorMrMidNotFound
  {
    CoveredStatusYieldsEntry(7, 0xC000_000C);
    FacilityC001YieldsCode(0xC001_0005);
    GapYieldsNotFound(0xC000_0200);
  }
}
