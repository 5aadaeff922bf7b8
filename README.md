# RtlNtStatusToDosError: a verified model of Xenia's NTSTATUS translator

This project models the Xbox 360 kernel export `RtlNtStatusToDosError` of the Xenia
emulator (`src/xenia/kernel/xboxkrnl/xboxkrnl_error.cc`) and the constant tables it reads.
Guest code calls it to turn an NTSTATUS, or an HRESULT that wraps a Win32 code, into the
Win32 error code that the Windows API would report. The bit layouts are the ones in
[MS-ERREF], Windows Error Codes: section 2.1 (HRESULT), section 2.2 (Win32 error codes) and
section 2.3 (NTSTATUS).

The translation applies these rules in order:

1. A zero status, or one with the customer bit `0x20000000` set, comes back unchanged.
2. An HRESULT whose upper half is `0x8007` (FACILITY_WIN32) yields its low 16 bits.
3. A status whose top nibble is `0xD` has bits `0x30000000` cleared, so it reads as `0xC…`.
4. The list of fourteen sparse tables is walked in ascending base order. A table covers the
   statuses `base <= status < base + count`, and its entry for the status is returned. The
   walk stops at the `{0, 0, nullptr}` sentinel, at the first table whose base is above the
   status, or at a zero "hole" entry.
5. If nothing was found, a status whose upper half is `0xC001` yields its low 16 bits.
6. Anything else yields 317, ERROR_MR_MID_NOT_FOUND.

Files:

- `error_tables.dfy`, module `ErrorTables`: the record `error_lookup_table` as the datatype
  `ErrorLookupTable`, all fourteen tables copied entry by entry, and the list
  `ErrorTableList` with its sentinel. The module also proves the list's layout: the bases
  ascend, the runs do not overlap, and the sentinel closes the list. From that layout it
  proves that at most one table covers a status, and that no table at or after a larger
  base covers it.
- `xboxkrnl_error.dfy`, module `XboxkrnlError`: the specification `NtStatusToDosError` and
  the source's procedure `RtlNtStatusToDosError`. The specification finds an entry through
  "the one table that covers the status", with no walk. The procedure keeps the source's
  early returns, its reassignment of `status` and its `while` loop over the list, with the
  same `break`s. Its postcondition says it equals the specification on every 32-bit input.
  The lemmas after it state each rule for whole classes of statuses, and check single
  statuses against rows of the tables.

A 32-bit word is the newtype `u32`, an integer in `[0, 2^32)`. The source's masks and shifts
are functions on it, each named after what it computes; its doc comment gives the mask it stands for: `status >> 16` is
`UpperHalf`, `status & 0xFFFF` is `LowHalf`, `status & 0x20000000` is `IsCustomerCode`, and
`status & ~0x30000000` is `ClearCustomerAndNBits`. The source advances a pointer with
`++error_table`; the model advances an index into the list.

## Model

| member | source | states |
|---|---|---|
| `ErrorTables.TableCounts` | src/xenia/kernel/xboxkrnl/xboxkrnl_error.cc:33-961 | the number of entries of each of the fourteen tables, which is the `count` that `MAKE_ENTRY` stores |
| `ErrorTables.TableListWellOrdered` | src/xenia/kernel/xboxkrnl/xboxkrnl_error.cc:965-971 | the list has 15 elements and ends with the zero-base, zero-count sentinel; every other table has a non-zero base and at least one entry; each table ends at or before the next table's base |
| `ErrorTables.ErrorLookupTable.Covers` | src/xenia/kernel/xboxkrnl/xboxkrnl_error.cc:991-996 | the tests `status >= base_code` and `status - base_code < count` both pass exactly when `base <= status < base + count` |
| `ErrorTables.OrderedPairwise` | src/xenia/kernel/xboxkrnl/xboxkrnl_error.cc:965-971 | in a well-ordered list, every table ends at or before the base of every later table, not only the next one |
| `ErrorTables.CoveringTableUnique` | src/xenia/kernel/xboxkrnl/xboxkrnl_error.cc:994-996 | in a well-ordered list, two tables that both cover a status are the same table |
| `ErrorTables.BelowBaseNotCovered` | src/xenia/kernel/xboxkrnl/xboxkrnl_error.cc:991-993 | a status below table k's base is covered by no table from k on, so the walk may stop there |
| `XboxkrnlError.IsCustomerCode` | src/xenia/kernel/xboxkrnl/xboxkrnl_error.cc:976 | `status & 0x20000000` is set exactly when the status modulo 2^30 is at least 2^29, that is when bit 29 is one |
| `XboxkrnlError.UpperHalf` | src/xenia/kernel/xboxkrnl/xboxkrnl_error.cc:980 | `status >> 16` is a 16-bit value r with r * 2^16 <= status < (r + 1) * 2^16 |
| `XboxkrnlError.LowHalf` | src/xenia/kernel/xboxkrnl/xboxkrnl_error.cc:981 | `status & 0xFFFF` is a 16-bit value that, added to the upper half shifted back by 16, rebuilds the status |
| `XboxkrnlError.TopNibble` | src/xenia/kernel/xboxkrnl/xboxkrnl_error.cc:984 | the 0xD test reads a 4-bit value r with r * 2^28 <= status < (r + 1) * 2^28 |
| `XboxkrnlError.IsWin32HResult` | src/xenia/kernel/xboxkrnl/xboxkrnl_error.cc:980 | `(status >> 16) == 0x8007` holds exactly for the statuses from 0x80070000 to 0x8007FFFF |
| `XboxkrnlError.ClearCustomerAndNBits` | src/xenia/kernel/xboxkrnl/xboxkrnl_error.cc:986 | `status & ~0x30000000` keeps the low 28 bits and the two top bits, and clears bits 29 and 28 |
| `XboxkrnlError.Normalize` | src/xenia/kernel/xboxkrnl/xboxkrnl_error.cc:984-987 | a status with top nibble 0xD loses exactly its N bit (it becomes 0xC…); any other status is unchanged |
| `XboxkrnlError.TableEntry` | src/xenia/kernel/xboxkrnl/xboxkrnl_error.cc:994-1002 | an entry found for a status is non-zero, and some table covers the status |
| `XboxkrnlError.TableEntryAt` | src/xenia/kernel/xboxkrnl/xboxkrnl_error.cc:994-1002 | when table k covers a status, the lookup gives table k's entry at `status - base`, or nothing when that entry is a hole |
| `XboxkrnlError.GapNotCovered` | src/xenia/kernel/xboxkrnl/xboxkrnl_error.cc:989-1004 | a status between the end of table k and the base of table k + 1 is covered by no table |
| `XboxkrnlError.NtStatusToDosError` | src/xenia/kernel/xboxkrnl/xboxkrnl_error.cc:974-1012 | applies the six rules in the source's order: pass-through, FACILITY_WIN32, the 0xD rewrite, the entry of the one table that covers the status, the 0xC001 fallback and 317; its contract states that a zero result only comes from a status whose low 16 bits are zero, since no table entry it returns is zero |
| `XboxkrnlError.RtlNtStatusToDosError` | src/xenia/kernel/xboxkrnl/xboxkrnl_error.cc:974-1012 | the procedure, with its loop over the table list, returns the specified translation for every 32-bit status. The proof also establishes, through Dafny's index checks and the loop invariant, that every entry it reads is inside its table and that the walk ends at the sentinel at the latest; the contract does not state these |
| `XboxkrnlError.PassThrough` | src/xenia/kernel/xboxkrnl/xboxkrnl_error.cc:976-978 | zero, and every status with the customer bit, comes back unchanged, before any other rule applies |
| `XboxkrnlError.Win32HResultYieldsCode` | src/xenia/kernel/xboxkrnl/xboxkrnl_error.cc:980-982 | every status with upper half 0x8007 yields its low 16 bits |
| `XboxkrnlError.DPrefixReadsAsC` | src/xenia/kernel/xboxkrnl/xboxkrnl_error.cc:984-987 | for every 28-bit value x, 0xD0000000 + x translates exactly as 0xC0000000 + x does |
| `XboxkrnlError.CoveredStatusYieldsEntry` | src/xenia/kernel/xboxkrnl/xboxkrnl_error.cc:994-1011 | a status that table k covers yields that table's entry, or 317 when the entry is a hole |
| `XboxkrnlError.CoveredStatusIsPlain` | src/xenia/kernel/xboxkrnl/xboxkrnl_error.cc:976-987 | no covered status is zero, has the customer bit, is a FACILITY_WIN32 HRESULT, has top nibble 0xD or has upper half 0xC001, so none of the other rules can preempt a table entry |
| `XboxkrnlError.FacilityC001YieldsCode` | src/xenia/kernel/xboxkrnl/xboxkrnl_error.cc:1006-1008 | every status with upper half 0xC001 or 0xD001 is in no table and yields its low 16 bits |
| `XboxkrnlError.GapYieldsNotFound` | src/xenia/kernel/xboxkrnl/xboxkrnl_error.cc:989-1011 | every status that reads as 0xC000019C to 0xC0000201 falls between two tables and yields 317 |
| `XboxkrnlError.ZeroResultIff` | src/xenia/kernel/xboxkrnl/xboxkrnl_error.cc:974-1012 | the result is 0 exactly for the statuses 0, 0x80070000, 0xC0010000 and 0xD0010000 |
| `XboxkrnlError.SmallTableExamples` | src/xenia/kernel/xboxkrnl/xboxkrnl_error.cc:33-961 | 0x103 gives 0x3E5, 0x40000008 gives 0x460, and 0xC0980008 gives 0x37 |
| `XboxkrnlError.LargeTableExample` | src/xenia/kernel/xboxkrnl/xboxkrnl_error.cc:173 | 0xC0000005 gives 0x3E6, from the first block of the 0xC0000001 table |
| `XboxkrnlError.LargeTableSecondBlockExample` | src/xenia/kernel/xboxkrnl/xboxkrnl_error.cc:202 | 0xC0000022 gives 5, from the second 32-entry block of the 0xC0000001 table |
| `XboxkrnlError.DPrefixExample` | src/xenia/kernel/xboxkrnl/xboxkrnl_error.cc:984-1002 | 0xD0000005 is read as 0xC0000005 and gives 0x3E6 |
| `XboxkrnlError.FallbackExamples` | src/xenia/kernel/xboxkrnl/xboxkrnl_error.cc:976-1011 | 0xE0000001 is unchanged, 0x80070005 gives 5, the hole 0xC000000C gives 317, 0xC0010005 gives 5, and the gap status 0xC0000200 gives 317 |

## Left out

- Logging: the `XELOGI` and `XELOGE` calls (lines 1000 and 1010) write a log line and do not change the result.
- Export plumbing: `DECLARE_XBOXKRNL_EXPORT3` and the empty `RegisterErrorExports` (lines 1013-1017) register the function with the emulator and have no behaviour to model.
- Guest byte order: `dword_t` and `dword_result_t` convert guest big-endian words. Here the input and the result are plain unsigned 32-bit values.
- Pointers: the source walks the list with the pointer `error_table` and reads the table through the `entries` pointer. The model uses an index into the list and a sequence for each table. `count` is the length of that sequence, as `countof` computes it.
- Table layout: the tables with more than 32 entries are written as concatenations of 32-entry blocks. The sequence they denote is the source table, entry for entry. The split only keeps concrete lookups within reach of the verifier.
- `src/xenia/gpu/ring_buffer_worker.h`: this file only declares `RingBufferWorker`. It gives no bodies for `AdvancePtr`, `ExecutePacket`, `ExecutePrimaryBuffer`, `ExecuteIndirectBuffer` or `Pump`; its method bodies are defined elsewhere and are not part of this model. Its cross-thread members, the `volatile` write indices and the wake-up `HANDLE`, are left out too.
