/** The constant data of src/xenia/kernel/xboxkrnl/xboxkrnl_error.cc: the record type
    `error_lookup_table`, the fourteen sparse tables that map a run of consecutive
    NTSTATUS values to Win32 error codes, and the list `error_tables` that the
    translator walks. Every table and entry is copied verbatim; an entry of zero is a
    "hole" (a status inside the run that has no translation). */
module ErrorTables {

  /** An unsigned 32-bit word, `uint32_t`: every status, table base and table entry. */
  newtype u32 = x: int | 0 <= x < 0x1_0000_0000

  /** One element of the table list: the first status the table covers and one entry
      per consecutive status. The source stores `count` beside the entries pointer;
      here it is the length of the sequence, as `countof` makes it there. */
  datatype ErrorLookupTable = ErrorLookupTable(baseCode: u32, entries: seq<u32>)
  {
    function Count(): nat { |entries| }

    /** One past the last status the table covers, as an unbounded integer. */
    function End(): int { baseCode as int + |entries| }

    /** `status` lies in the run of statuses this table covers. */
    predicate Covers(status: u32): (b: bool)
      ensures b <==> baseCode as int <= status as int < End()
    {
      baseCode <= status && ((status - baseCode) as int) < |entries|
    }
  }

  /** `error_table_0x00000103` (xboxkrnl_error.cc:33-45), 11 entries. */
  const Table00000103: seq<u32> := [
    0x000003E5, 0, 0x000000EA, 0x00000514, 0x00000515, 0, 0, 0,                                     // 0x00000103
    0, 0x000003FE, 0x00000516                                                                       // 0x0000010B
  ]

  /** `error_table_0x40000002` (xboxkrnl_error.cc:47-60), 12 entries. */
  const Table40000002: seq<u32> := [
    0x00000057, 0, 0, 0, 0x00000517, 0, 0x00000460, 0x000003F6,                                     // 0x40000002
    0, 0, 0x00000461, 0x00000518                                                                    // 0x4000000A
  ]

  /** `error_table_0x40020056` (xboxkrnl_error.cc:62-64), 1 entry. */
  const Table40020056: seq<u32> := [
    0x00000720                                                                                      // 0x40020056
  ]

  /** `error_table_0x400200AF` (xboxkrnl_error.cc:66-68), 1 entry. */
  const Table400200AF: seq<u32> := [
    0x00000779                                                                                      // 0x400200AF
  ]

  /** `error_table_0x80000001` (xboxkrnl_error.cc:70-108), 37 entries. */
  const Table80000001: seq<u32> :=
    Block80000001 + Block80000021

  /** Entries of `error_table_0x80000001` for statuses 0x80000001 to 0x80000020. */
  const Block80000001: seq<u32> := [
    0x80000001, 0x000003E6, 0x80000003, 0x80000004, 0x000000EA, 0x00000012, 0, 0,                   // 0x80000001
    0, 0, 0x0000056F, 0, 0x0000012B, 0x0000001C, 0x00000015, 0x00000015,                            // 0x80000009
    0x000000AA, 0x00000103, 0x000000FE, 0x000000FF, 0x000000FF, 0x00000456, 0, 0,                   // 0x80000011
    0, 0x00000103, 0x0000044D, 0x00000456, 0x00000457, 0x0000044C, 0x0000044E, 0                    // 0x80000019
  ]

  /** Entries of `error_table_0x80000001` for statuses 0x80000021 to 0x80000025. */
  const Block80000021: seq<u32> := [
    0x0000044F, 0x00000450, 0, 0, 0x00000962                                                        // 0x80000021
  ]

  /** `error_table_0x80000288` (xboxkrnl_error.cc:110-113), 2 entries. */
  const Table80000288: seq<u32> := [
    0x0000048D, 0x0000048E                                                                          // 0x80000288
  ]

  /** `error_table_0x80090300` (xboxkrnl_error.cc:115-166), 50 entries. */
  const Table80090300: seq<u32> :=
    Block80090300 + Block80090320

  /** Entries of `error_table_0x80090300` for statuses 0x80090300 to 0x8009031F. */
  const Block80090300: seq<u32> := [
    0x000005AA, 0x00000006, 0x00000001, 0x00000035, 0x0000054F, 0x00000554, 0x00000120, 0x00000554, // 0x80090300
    0x00000057, 0x00000057, 0x00000032, 0x00000558, 0x0000052E, 0x00000057, 0x00000520, 0x00000005, // 0x80090308
    0x00000005, 0x0000051F, 0, 0, 0, 0, 0x00000554, 0,                                              // 0x80090310
    0x000006F8, 0, 0, 0, 0, 0, 0, 0                                                                 // 0x80090318
  ]

  /** Entries of `error_table_0x80090300` for statuses 0x80090320 to 0x80090331. */
  const Block80090320: seq<u32> := [
    0x00000057, 0x0000007A, 0x00000574, 0, 0, 0x000006FE, 0x00000057, 0x00000057,                   // 0x80090320
    0x00000532, 0x00001770, 0, 0, 0, 0, 0, 0,                                                       // 0x80090328
    0x00001771, 0x00000001                                                                          // 0x80090330
  ]

  /** `error_table_0xC0000001` (xboxkrnl_error.cc:168-580), 411 entries. */
  const TableC0000001: seq<u32> :=
    BlockC0000001 + BlockC0000021 + BlockC0000041 + BlockC0000061
    + BlockC0000081 + BlockC00000A1 + BlockC00000C1 + BlockC00000E1
    + BlockC0000101 + BlockC0000121 + BlockC0000141 + BlockC0000161
    + BlockC0000181

  /** Entries of `error_table_0xC0000001` for statuses 0xC0000001 to 0xC0000020. */
  const BlockC0000001: seq<u32> := [
    0x0000001F, 0x00000001, 0x00000057, 0x00000018, 0x000003E6, 0x000003E7, 0x000005AE, 0x00000006, // 0xC0000001
    0x000003E9, 0x000000C1, 0x00000057, 0, 0x00000057, 0x00000002, 0x00000002, 0x00000001,          // 0xC0000009
    0x00000026, 0x00000022, 0x00000015, 0x000006F9, 0x0000001B, 0x000000EA, 0x00000008, 0x000001E7, // 0xC0000011
    0x000001E7, 0x00000057, 0x00000057, 0x00000001, 0xC000001D, 0x00000005, 0x00000005, 0x000000C1  // 0xC0000019
  ]

  /** Entries of `error_table_0xC0000001` for statuses 0xC0000021 to 0xC0000040. */
  const BlockC0000021: seq<u32> := [
    0x00000005, 0x00000005, 0x0000007A, 0x00000006, 0xC0000025, 0xC0000026, 0, 0,                   // 0xC0000021
    0, 0x0000009E, 0xC000002B, 0x000001E7, 0x000001E7, 0, 0, 0x00000057,                            // 0xC0000029
    0, 0x00000571, 0x0000007B, 0x00000002, 0x000000B7, 0, 0x00000006, 0,                            // 0xC0000031
    0x000000A1, 0x00000003, 0x000000A1, 0x0000045D, 0x0000045D, 0x00000017, 0x00000017, 0x00000008  // 0xC0000039
  ]

  /** Entries of `error_table_0xC0000001` for statuses 0xC0000041 to 0xC0000060. */
  const BlockC0000041: seq<u32> := [
    0x00000005, 0x00000006, 0x00000020, 0x00000718, 0x00000057, 0x00000120, 0x0000012A, 0x00000057, // 0xC0000041
    0x00000057, 0x0000009C, 0x00000005, 0x00000057, 0x00000057, 0x00000057, 0x0000011A, 0x000000FF, // 0xC0000049
    0x00000570, 0x00000570, 0x00000570, 0x00000021, 0x00000021, 0x00000005, 0x00000032, 0x00000519, // 0xC0000051
    0x0000051A, 0x0000051B, 0x0000051C, 0x0000051D, 0x0000051E, 0x0000051F, 0x00000520, 0x00000521  // 0xC0000059
  ]

  /** Entries of `error_table_0xC0000001` for statuses 0xC0000061 to 0xC0000080. */
  const BlockC0000061: seq<u32> := [
    0x00000522, 0x00000523, 0x00000524, 0x00000525, 0x00000526, 0x00000527, 0x00000528, 0x00000529, // 0xC0000061
    0x0000052A, 0x00000056, 0x0000052C, 0x0000052D, 0x0000052E, 0x0000052F, 0x00000530, 0x00000531, // 0xC0000069
    0x00000532, 0x00000533, 0x00000534, 0x00000535, 0x00000536, 0x00000537, 0x00000538, 0x00000539, // 0xC0000071
    0x0000053A, 0x0000007F, 0x000000C1, 0x000003F0, 0x0000053C, 0x0000009E, 0x00000070, 0x0000053D  // 0xC0000079
  ]

  /** Entries of `error_table_0xC0000001` for statuses 0xC0000081 to 0xC00000A0. */
  const BlockC0000081: seq<u32> := [
    0x0000053E, 0x00000044, 0x00000103, 0x0000053F, 0x00000103, 0x0000009A, 0x0000000E, 0x000001E7, // 0xC0000081
    0x00000714, 0x00000715, 0x00000716, 0xC000008C, 0xC000008D, 0xC000008E, 0xC000008F, 0xC0000090, // 0xC0000089
    0xC0000091, 0xC0000092, 0xC0000093, 0xC0000094, 0x00000216, 0xC0000096, 0x00000008, 0x000003EE, // 0xC0000091
    0x00000540, 0x000005AA, 0x00000003, 0x00000017, 0x0000048F, 0x00000015, 0x000001E7, 0x000001E7  // 0xC0000099
  ]

  /** Entries of `error_table_0xC0000001` for statuses 0xC00000A1 to 0xC00000C0. */
  const BlockC00000A1: seq<u32> := [
    0x000005AD, 0x00000013, 0x00000015, 0x00000541, 0x00000542, 0x00000543, 0x00000544, 0x00000545, // 0xC00000A1
    0x00000057, 0, 0x000000E7, 0x000000E7, 0x000000E6, 0x000000E7, 0x00000001, 0x000000E9,          // 0xC00000A9
    0x000000E8, 0x00000217, 0x00000218, 0x000000E6, 0x00000079, 0x00000026, 0, 0,                   // 0xC00000B1
    0, 0x00000005, 0x00000032, 0x00000033, 0x00000034, 0x00000035, 0x00000036, 0x00000037           // 0xC00000B9
  ]

  /** Entries of `error_table_0xC0000001` for statuses 0xC00000C1 to 0xC00000E0. */
  const BlockC00000C1: seq<u32> := [
    0x00000038, 0x00000039, 0x0000003A, 0x0000003B, 0x0000003C, 0x0000003D, 0x0000003E, 0x0000003F, // 0xC00000C1
    0x00000040, 0x00000041, 0x00000042, 0x00000043, 0x00000044, 0x00000045, 0x00000046, 0x00000047, // 0xC00000C9
    0x00000048, 0x00000058, 0, 0x00000011, 0x00000005, 0x000000F0, 0x00000546, 0,                   // 0xC00000D1
    0x000000E8, 0x00000547, 0, 0x00000548, 0x00000549, 0x0000054A, 0x0000054B, 0x0000054C           // 0xC00000D9
  ]

  /** Entries of `error_table_0xC0000001` for statuses 0xC00000E1 to 0xC0000100. */
  const BlockC00000E1: seq<u32> := [
    0x0000054D, 0x0000012C, 0x0000012D, 0x0000054E, 0x0000054F, 0x00000550, 0x00000551, 0x000006F8, // 0xC00000E1
    0, 0, 0, 0, 0x00000552, 0x00000553, 0x00000057, 0x00000057,                                     // 0xC00000E9
    0x00000057, 0x00000057, 0x00000057, 0x00000057, 0x00000057, 0x00000057, 0x00000057, 0x00000057, // 0xC00000F1
    0x00000057, 0x00000057, 0x00000003, 0, 0x000003E9, 0x00000554, 0, 0x000000CB                    // 0xC00000F9
  ]

  /** Entries of `error_table_0xC0000001` for statuses 0xC0000101 to 0xC0000120. */
  const BlockC0000101: seq<u32> := [
    0x00000091, 0x00000570, 0x0000010B, 0x00000555, 0x00000556, 0x000000CE, 0x00000961, 0x00000964, // 0xC0000101
    0x0000013D, 0x00000005, 0x00000557, 0, 0x00000558, 0x00000420, 0, 0,                            // 0xC0000109
    0, 0, 0, 0, 0, 0, 0x000005A4, 0,                                                                // 0xC0000111
    0, 0, 0, 0, 0, 0x000003EE, 0x00000004, 0x000003E3                                               // 0xC0000119
  ]

  /** Entries of `error_table_0xC0000001` for statuses 0xC0000121 to 0xC0000140. */
  const BlockC0000121: seq<u32> := [
    0x00000005, 0x000004BA, 0x00000005, 0x0000055B, 0x0000055C, 0x0000055D, 0x0000055E, 0x00000006, // 0xC0000121
    0, 0, 0x0000055F, 0, 0x000005AF, 0, 0, 0x000000C1,                                              // 0xC0000129
    0, 0, 0x00000576, 0, 0x0000007E, 0, 0, 0x000000B6,                                              // 0xC0000131
    0x0000007F, 0, 0x00000040, 0x00000040, 0x00000033, 0x0000003B, 0x0000003B, 0x0000003B           // 0xC0000139
  ]

  /** Entries of `error_table_0xC0000001` for statuses 0xC0000141 to 0xC0000160. */
  const BlockC0000141: seq<u32> := [
    0x0000003B, 0x0000045A, 0, 0, 0, 0, 0, 0x0000007C,                                              // 0xC0000141
    0x00000056, 0, 0x0000006D, 0x000003F1, 0x000003F8, 0, 0x000003ED, 0x0000045E,                   // 0xC0000149
    0x00000560, 0x00000561, 0x00000562, 0x00000563, 0x00000564, 0x00000565, 0x00000566, 0x00000567, // 0xC0000151
    0x000003EF, 0x00000568, 0x00000569, 0x000003F9, 0x0000056A, 0, 0, 0                             // 0xC0000159
  ]

  /** Entries of `error_table_0xC0000001` for statuses 0xC0000161 to 0xC0000180. */
  const BlockC0000161: seq<u32> := [
    0, 0x00000459, 0, 0, 0, 0, 0, 0,                                                                // 0xC0000161
    0x00000466, 0x00000467, 0x00000468, 0x0000045F, 0, 0, 0, 0,                                     // 0xC0000169
    0, 0x00000451, 0x00000452, 0x00000453, 0x00000454, 0x00000455, 0x00000469, 0x00000458,          // 0xC0000171
    0, 0x0000056B, 0x0000056C, 0x000003FA, 0x000003FB, 0x0000056D, 0x0000056E, 0x000003FC           // 0xC0000179
  ]

  /** Entries of `error_table_0xC0000001` for statuses 0xC0000181 to 0xC000019B. */
  const BlockC0000181: seq<u32> := [
    0x000003FD, 0x00000057, 0x0000045D, 0x00000016, 0x0000045D, 0x0000045D, 0, 0x000005DE,          // 0xC0000181
    0x00000013, 0x000006FA, 0x000006FB, 0x000006FC, 0x000006FD, 0x000005DC, 0x000005DD, 0x000006FE, // 0xC0000189
    0, 0x00000700, 0x00000701, 0x0000046B, 0x000004C3, 0x000004C4, 0x000005DF, 0x0000070F,          // 0xC0000191
    0x00000710, 0x00000711, 0x00000712                                                              // 0xC0000199
  ]

  /** `error_table_0xC0000202` (xboxkrnl_error.cc:582-816), 233 entries. */
  const TableC0000202: seq<u32> :=
    BlockC0000202 + BlockC0000222 + BlockC0000242 + BlockC0000262
    + BlockC0000282 + BlockC00002A2 + BlockC00002C2 + BlockC00002E2

  /** Entries of `error_table_0xC0000202` for statuses 0xC0000202 to 0xC0000221. */
  const BlockC0000202: seq<u32> := [
    0x00000572, 0x0000003B, 0x00000717, 0x0000046A, 0x000006F8, 0x000004BE, 0x000004BE, 0x00000044, // 0xC0000202
    0x00000034, 0x00000040, 0x00000040, 0x00000040, 0x00000044, 0x0000003B, 0x0000003B, 0x0000003B, // 0xC000020A
    0x0000003B, 0x0000003B, 0x0000003B, 0x0000003B, 0x00000032, 0x00000032, 0, 0,                   // 0xC0000212
    0, 0, 0x000017E6, 0, 0, 0, 0x0000046C, 0x000000C1                                               // 0xC000021A
  ]

  /** Entries of `error_table_0xC0000202` for statuses 0xC0000222 to 0xC0000241. */
  const BlockC0000222: seq<u32> := [
    0, 0, 0x00000773, 0x00000490, 0, 0, 0, 0,                                                       // 0xC0000222
    0xC000022A, 0xC000022B, 0, 0x000004D5, 0, 0, 0x00000492, 0,                                     // 0xC000022A
    0, 0x00000774, 0x00000775, 0x00000006, 0x000004C9, 0x000004CA, 0x000004CB, 0x000004CC,          // 0xC0000232
    0x000004CD, 0x000004CE, 0x000004CF, 0x000004D0, 0x000004D1, 0x000004D2, 0x000004D3, 0x000004D4  // 0xC000023A
  ]

  /** Entries of `error_table_0xC0000202` for statuses 0xC0000242 to 0xC0000261. */
  const BlockC0000242: seq<u32> := [
    0, 0x000004C8, 0, 0, 0x000004D6, 0x000004D7, 0x000004D8, 0x000000C1,                            // 0xC0000242
    0, 0, 0, 0, 0, 0, 0, 0,                                                                         // 0xC000024A
    0, 0x0000054F, 0, 0, 0, 0x000004D0, 0, 0x00000573,                                              // 0xC0000252
    0, 0, 0, 0, 0x00000422, 0, 0, 0                                                                 // 0xC000025A
  ]

  /** Entries of `error_table_0xC0000202` for statuses 0xC0000262 to 0xC0000281. */
  const BlockC0000262: seq<u32> := [
    0x000000B6, 0x0000007F, 0x00000120, 0x00000476, 0, 0x000010FE, 0, 0,                            // 0xC0000262
    0, 0, 0x000007D1, 0x000004B1, 0x00000015, 0, 0, 0,                                              // 0xC000026A
    0x00000491, 0, 0, 0x00001126, 0x00001129, 0x0000112A, 0x00001128, 0x00000780,                   // 0xC0000272
    0, 0, 0, 0, 0, 0, 0x00000781, 0x000000A1                                                        // 0xC000027A
  ]

  /** Entries of `error_table_0xC0000202` for statuses 0xC0000282 to 0xC00002A1. */
  const BlockC0000282: seq<u32> := [
    0, 0x00000488, 0x00000489, 0x0000048A, 0x0000048B, 0x0000048C, 0, 0,                            // 0xC0000282
    0x00000005, 0x00000005, 0, 0x00000005, 0x00000005, 0x00000005, 0x00000005, 0x00001777,          // 0xC000028A
    0x00001778, 0x00001772, 0, 0, 0, 0, 0, 0,                                                       // 0xC0000292
    0, 0, 0x00000001, 0, 0, 0, 0, 0                                                                 // 0xC000029A
  ]

  /** Entries of `error_table_0xC0000202` for statuses 0xC00002A2 to 0xC00002C1. */
  const BlockC00002A2: seq<u32> := [
    0, 0, 0, 0, 0, 0, 0, 0,                                                                         // 0xC00002A2
    0, 0, 0, 0, 0, 0, 0, 0,                                                                         // 0xC00002AA
    0x00001127, 0, 0, 0, 0x00000651, 0, 0, 0,                                                       // 0xC00002B2
    0, 0, 0, 0, 0, 0, 0, 0                                                                          // 0xC00002BA
  ]

  /** Entries of `error_table_0xC0000202` for statuses 0xC00002C2 to 0xC00002E1. */
  const BlockC00002C2: seq<u32> := [
    0, 0x00000575, 0, 0x000003E6, 0, 0, 0, 0,                                                       // 0xC00002C2
    0x000010E8, 0, 0x000004E3, 0, 0, 0, 0, 0,                                                       // 0xC00002CA
    0, 0, 0, 0, 0, 0, 0, 0,                                                                         // 0xC00002D2
    0, 0, 0, 0, 0, 0, 0, 0                                                                          // 0xC00002DA
  ]

  /** Entries of `error_table_0xC0000202` for statuses 0xC00002E2 to 0xC00002EA. */
  const BlockC00002E2: seq<u32> := [
    0, 0, 0, 0, 0, 0, 0, 0,                                                                         // 0xC00002E2
    0x00000052                                                                                      // 0xC00002EA
  ]

  /** `error_table_0xC0020001` (xboxkrnl_error.cc:818-918), 99 entries. */
  const TableC0020001: seq<u32> :=
    BlockC0020001 + BlockC0020021 + BlockC0020041 + BlockC0020061

  /** Entries of `error_table_0xC0020001` for statuses 0xC0020001 to 0xC0020020. */
  const BlockC0020001: seq<u32> := [
    0x000006A4, 0x000006A5, 0x00000006, 0x000006A7, 0x000006A8, 0x000006A9, 0x000006AA, 0x000006AB, // 0xC0020001
    0x000006AC, 0x000006AD, 0x000006AE, 0x000006AF, 0x000006B0, 0x000006B1, 0x000006B2, 0x000006B3, // 0xC0020009
    0x000006B4, 0x000006B5, 0x000006B6, 0x000006B7, 0x000006B8, 0x000006B9, 0x000006BA, 0x000006BB, // 0xC0020011
    0x000006BC, 0x000006BD, 0x000006BE, 0x000006BF, 0x000006C0, 0, 0x000006C2, 0                    // 0xC0020019
  ]

  /** Entries of `error_table_0xC0020001` for statuses 0xC0020021 to 0xC0020040. */
  const BlockC0020021: seq<u32> := [
    0x000006C4, 0x000006C5, 0x000006C6, 0x000006C7, 0x000006C8, 0x000006C9, 0, 0x000006CB,          // 0xC0020021
    0x000006CC, 0x000006CD, 0x000006CE, 0x000006CF, 0x000006D0, 0x000006D1, 0x000006D2, 0x000006D3, // 0xC0020029
    0x000006D4, 0x000006D5, 0x000006D6, 0x000006D7, 0x000006D8, 0x000006D9, 0x000006DA, 0x000006DB, // 0xC0020031
    0x000006DC, 0x000006DD, 0x000006DE, 0x000006DF, 0x000006E0, 0x000006E1, 0x000006E2, 0x000006E3  // 0xC0020039
  ]

  /** Entries of `error_table_0xC0020001` for statuses 0xC0020041 to 0xC0020060. */
  const BlockC0020041: seq<u32> := [
    0x000006E4, 0x000006E5, 0x000006E6, 0x000006E7, 0x000006E8, 0x000006E9, 0x000006EA, 0x000006EB, // 0xC0020041
    0x000006FF, 0x0000070E, 0x0000076A, 0x0000076B, 0x0000076C, 0, 0x00000719, 0x0000071A,          // 0xC0020049
    0x0000071B, 0x0000071C, 0x0000071D, 0x0000071E, 0x0000071F, 0, 0x00000721, 0x00000722,          // 0xC0020051
    0, 0, 0, 0, 0, 0, 0, 0                                                                          // 0xC0020059
  ]

  /** Entries of `error_table_0xC0020001` for statuses 0xC0020061 to 0xC0020063. */
  const BlockC0020061: seq<u32> := [
    0, 0x0000077A, 0x0000077B                                                                       // 0xC0020061
  ]

  /** `error_table_0xC0030001` (xboxkrnl_error.cc:920-933), 12 entries. */
  const TableC0030001: seq<u32> := [
    0x000006EC, 0x000006ED, 0x000006EE, 0x00000006, 0x00000006, 0x000006F1, 0x000006F2, 0x000006F3, // 0xC0030001
    0x000006F4, 0x000006F5, 0x000006F6, 0x000006F7                                                  // 0xC0030009
  ]

  /** `error_table_0xC0030059` (xboxkrnl_error.cc:935-945), 9 entries. */
  const TableC0030059: seq<u32> := [
    0x00000723, 0x00000724, 0x00000725, 0x00000726, 0, 0x00000728, 0x0000077C, 0x0000077D,          // 0xC0030059
    0x0000077E                                                                                      // 0xC0030061
  ]

  /** `error_table_0xC0050003` (xboxkrnl_error.cc:947-950), 2 entries. */
  const TableC0050003: seq<u32> := [
    0x0000045D, 0x00000456                                                                          // 0xC0050003
  ]

  /** `error_table_0xC0980001` (xboxkrnl_error.cc:952-961), 8 entries. */
  const TableC0980001: seq<u32> := [
    0x00000037, 0x00000037, 0, 0, 0, 0, 0, 0x00000037                                               // 0xC0980001
  ]

  /** The list `error_tables` (xboxkrnl_error.cc:965-971): the fourteen tables in the
      order the source lists them, closed by the `{0, 0, nullptr}` sentinel. */
  const ErrorTableList: seq<ErrorLookupTable> := [
    ErrorLookupTable(0x00000103, Table00000103),
    ErrorLookupTable(0x40000002, Table40000002),
    ErrorLookupTable(0x40020056, Table40020056),
    ErrorLookupTable(0x400200AF, Table400200AF),
    ErrorLookupTable(0x80000001, Table80000001),
    ErrorLookupTable(0x80000288, Table80000288),
    ErrorLookupTable(0x80090300, Table80090300),
    ErrorLookupTable(0xC0000001, TableC0000001),
    ErrorLookupTable(0xC0000202, TableC0000202),
    ErrorLookupTable(0xC0020001, TableC0020001),
    ErrorLookupTable(0xC0030001, TableC0030001),
    ErrorLookupTable(0xC0030059, TableC0030059),
    ErrorLookupTable(0xC0050003, TableC0050003),
    ErrorLookupTable(0xC0980001, TableC0980001),
    ErrorLookupTable(0, [])
  ]

  /** The shape the translator's walk relies on: a non-empty list closed by the zero-base,
      zero-count sentinel; every other table has a non-zero base and at least one entry;
      and each table ends at or before the base of the next one, so the runs ascend and
      do not overlap. */
  ghost predicate WellOrdered(ts: seq<ErrorLookupTable>)
  {
    && |ts| > 0
    && ts[|ts| - 1] == ErrorLookupTable(0, [])
    && (forall k :: 0 <= k < |ts| - 1 ==> ts[k].baseCode != 0 && ts[k].entries != [])
    && (forall k :: 0 <= k < |ts| - 2 ==> ts[k].End() <= ts[k + 1].baseCode as int)
  }

  /** The number of entries of each table, as `countof` gives it in `MAKE_ENTRY`. */
  lemma TableCounts()
    ensures |Table00000103| == 11 && |Table40000002| == 12 && |Table40020056| == 1
    ensures |Table400200AF| == 1 && |Table80000001| == 37 && |Table80000288| == 2
    ensures |Table80090300| == 50 && |TableC0000001| == 411 && |TableC0000202| == 233
    ensures |TableC0020001| == 99 && |TableC0030001| == 12 && |TableC0030059| == 9
    ensures |TableC0050003| == 2 && |TableC0980001| == 8
  {
    assert |TableC0000001| == 411;
    assert |TableC0000202| == 233;
  }

  /** The list of the source is well ordered, with the sentinel at index 14. */
  lemma TableListWellOrdered()
    ensures |ErrorTableList| == 15
    ensures WellOrdered(ErrorTableList)
  {
    TableCounts();
  }

  /** In a well-ordered list every table ends at or before the base of every later
      table (not only the next one). */
  lemma {:induction false} OrderedPairwise(ts: seq<ErrorLookupTable>, j: nat, k: nat)
    requires WellOrdered(ts)
    requires j < k < |ts| - 1
    ensures ts[j].End() <= ts[k].baseCode as int
  {
    if j + 1 < k {
      OrderedPairwise(ts, j, k - 1);
      assert ts[k - 1].entries != [];
    }
  }

  /** In a well-ordered list at most one table covers a status. */
  lemma CoveringTableUnique(ts: seq<ErrorLookupTable>, j: nat, k: nat, status: u32)
    requires WellOrdered(ts)
    requires j < |ts| && k < |ts| && ts[j].Covers(status) && ts[k].Covers(status)
    ensures j == k
  {
    if j < k {
      OrderedPairwise(ts, j, k);
    } else if k < j {
      OrderedPairwise(ts, k, j);
    }
  }

  /** In a well-ordered list a status below the base of table `k` is covered by no table
      from `k` on, because the bases ascend and the sentinel covers nothing. */
  lemma BelowBaseNotCovered(ts: seq<ErrorLookupTable>, k: nat, status: u32)
    requires WellOrdered(ts)
    requires k < |ts| && status < ts[k].baseCode
    ensures forall i :: k <= i < |ts| ==> !ts[i].Covers(status)
  {
    forall i | k < i < |ts| - 1
      ensures !ts[i].Covers(status)
    {
      OrderedPairwise(ts, k, i);
    }
  }
}
