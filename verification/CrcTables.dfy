/** The tables of crc32.c and bitrev.c, sixteen entries to a row, proved entry
    by entry to be what the bit-at-a-time definitions make of their index. */
module CrcTables {
  import opened CrcBits

  // ----- kernel/util/crc32.c, crc32table_le

  function Le0(): seq<bv32> {
    [0x00000000, 0x77073096, 0xee0e612c, 0x990951ba, 0x076dc419, 0x706af48f, 0xe963a535, 0x9e6495a3,
     0x0edb8832, 0x79dcb8a4, 0xe0d5e91e, 0x97d2d988, 0x09b64c2b, 0x7eb17cbd, 0xe7b82d07, 0x90bf1d91]
  }

  function Le1(): seq<bv32> {
    [0x1db71064, 0x6ab020f2, 0xf3b97148, 0x84be41de, 0x1adad47d, 0x6ddde4eb, 0xf4d4b551, 0x83d385c7,
     0x136c9856, 0x646ba8c0, 0xfd62f97a, 0x8a65c9ec, 0x14015c4f, 0x63066cd9, 0xfa0f3d63, 0x8d080df5]
  }

  function Le2(): seq<bv32> {
    [0x3b6e20c8, 0x4c69105e, 0xd56041e4, 0xa2677172, 0x3c03e4d1, 0x4b04d447, 0xd20d85fd, 0xa50ab56b,
     0x35b5a8fa, 0x42b2986c, 0xdbbbc9d6, 0xacbcf940, 0x32d86ce3, 0x45df5c75, 0xdcd60dcf, 0xabd13d59]
  }

  function Le3(): seq<bv32> {
    [0x26d930ac, 0x51de003a, 0xc8d75180, 0xbfd06116, 0x21b4f4b5, 0x56b3c423, 0xcfba9599, 0xb8bda50f,
     0x2802b89e, 0x5f058808, 0xc60cd9b2, 0xb10be924, 0x2f6f7c87, 0x58684c11, 0xc1611dab, 0xb6662d3d]
  }

  function Le4(): seq<bv32> {
    [0x76dc4190, 0x01db7106, 0x98d220bc, 0xefd5102a, 0x71b18589, 0x06b6b51f, 0x9fbfe4a5, 0xe8b8d433,
     0x7807c9a2, 0x0f00f934, 0x9609a88e, 0xe10e9818, 0x7f6a0dbb, 0x086d3d2d, 0x91646c97, 0xe6635c01]
  }

  function Le5(): seq<bv32> {
    [0x6b6b51f4, 0x1c6c6162, 0x856530d8, 0xf262004e, 0x6c0695ed, 0x1b01a57b, 0x8208f4c1, 0xf50fc457,
     0x65b0d9c6, 0x12b7e950, 0x8bbeb8ea, 0xfcb9887c, 0x62dd1ddf, 0x15da2d49, 0x8cd37cf3, 0xfbd44c65]
  }

  function Le6(): seq<bv32> {
    [0x4db26158, 0x3ab551ce, 0xa3bc0074, 0xd4bb30e2, 0x4adfa541, 0x3dd895d7, 0xa4d1c46d, 0xd3d6f4fb,
     0x4369e96a, 0x346ed9fc, 0xad678846, 0xda60b8d0, 0x44042d73, 0x33031de5, 0xaa0a4c5f, 0xdd0d7cc9]
  }

  function Le7(): seq<bv32> {
    [0x5005713c, 0x270241aa, 0xbe0b1010, 0xc90c2086, 0x5768b525, 0x206f85b3, 0xb966d409, 0xce61e49f,
     0x5edef90e, 0x29d9c998, 0xb0d09822, 0xc7d7a8b4, 0x59b33d17, 0x2eb40d81, 0xb7bd5c3b, 0xc0ba6cad]
  }

  function Le8(): seq<bv32> {
    [0xedb88320, 0x9abfb3b6, 0x03b6e20c, 0x74b1d29a, 0xead54739, 0x9dd277af, 0x04db2615, 0x73dc1683,
     0xe3630b12, 0x94643b84, 0x0d6d6a3e, 0x7a6a5aa8, 0xe40ecf0b, 0x9309ff9d, 0x0a00ae27, 0x7d079eb1]
  }

  function Le9(): seq<bv32> {
    [0xf00f9344, 0x8708a3d2, 0x1e01f268, 0x6906c2fe, 0xf762575d, 0x806567cb, 0x196c3671, 0x6e6b06e7,
     0xfed41b76, 0x89d32be0, 0x10da7a5a, 0x67dd4acc, 0xf9b9df6f, 0x8ebeeff9, 0x17b7be43, 0x60b08ed5]
  }

  function LeA(): seq<bv32> {
    [0xd6d6a3e8, 0xa1d1937e, 0x38d8c2c4, 0x4fdff252, 0xd1bb67f1, 0xa6bc5767, 0x3fb506dd, 0x48b2364b,
     0xd80d2bda, 0xaf0a1b4c, 0x36034af6, 0x41047a60, 0xdf60efc3, 0xa867df55, 0x316e8eef, 0x4669be79]
  }

  function LeB(): seq<bv32> {
    [0xcb61b38c, 0xbc66831a, 0x256fd2a0, 0x5268e236, 0xcc0c7795, 0xbb0b4703, 0x220216b9, 0x5505262f,
     0xc5ba3bbe, 0xb2bd0b28, 0x2bb45a92, 0x5cb36a04, 0xc2d7ffa7, 0xb5d0cf31, 0x2cd99e8b, 0x5bdeae1d]
  }

  function LeC(): seq<bv32> {
    [0x9b64c2b0, 0xec63f226, 0x756aa39c, 0x026d930a, 0x9c0906a9, 0xeb0e363f, 0x72076785, 0x05005713,
     0x95bf4a82, 0xe2b87a14, 0x7bb12bae, 0x0cb61b38, 0x92d28e9b, 0xe5d5be0d, 0x7cdcefb7, 0x0bdbdf21]
  }

  function LeD(): seq<bv32> {
    [0x86d3d2d4, 0xf1d4e242, 0x68ddb3f8, 0x1fda836e, 0x81be16cd, 0xf6b9265b, 0x6fb077e1, 0x18b74777,
     0x88085ae6, 0xff0f6a70, 0x66063bca, 0x11010b5c, 0x8f659eff, 0xf862ae69, 0x616bffd3, 0x166ccf45]
  }

  function LeE(): seq<bv32> {
    [0xa00ae278, 0xd70dd2ee, 0x4e048354, 0x3903b3c2, 0xa7672661, 0xd06016f7, 0x4969474d, 0x3e6e77db,
     0xaed16a4a, 0xd9d65adc, 0x40df0b66, 0x37d83bf0, 0xa9bcae53, 0xdebb9ec5, 0x47b2cf7f, 0x30b5ffe9]
  }

  function LeF(): seq<bv32> {
    [0xbdbdf21c, 0xcabac28a, 0x53b39330, 0x24b4a3a6, 0xbad03605, 0xcdd70693, 0x54de5729, 0x23d967bf,
     0xb3667a2e, 0xc4614ab8, 0x5d681b02, 0x2a6f2b94, 0xb40bbe37, 0xc30c8ea1, 0x5a05df1b, 0x2d02ef8d]
  }

  // ----- kernel/util/crc32.c, crc32table_be, before the byte swap of tobe

  function Be0(): seq<bv32> {
    [0x00000000, 0x04c11db7, 0x09823b6e, 0x0d4326d9, 0x130476dc, 0x17c56b6b, 0x1a864db2, 0x1e475005,
     0x2608edb8, 0x22c9f00f, 0x2f8ad6d6, 0x2b4bcb61, 0x350c9b64, 0x31cd86d3, 0x3c8ea00a, 0x384fbdbd]
  }

  function Be1(): seq<bv32> {
    [0x4c11db70, 0x48d0c6c7, 0x4593e01e, 0x4152fda9, 0x5f15adac, 0x5bd4b01b, 0x569796c2, 0x52568b75,
     0x6a1936c8, 0x6ed82b7f, 0x639b0da6, 0x675a1011, 0x791d4014, 0x7ddc5da3, 0x709f7b7a, 0x745e66cd]
  }

  function Be2(): seq<bv32> {
    [0x9823b6e0, 0x9ce2ab57, 0x91a18d8e, 0x95609039, 0x8b27c03c, 0x8fe6dd8b, 0x82a5fb52, 0x8664e6e5,
     0xbe2b5b58, 0xbaea46ef, 0xb7a96036, 0xb3687d81, 0xad2f2d84, 0xa9ee3033, 0xa4ad16ea, 0xa06c0b5d]
  }

  function Be3(): seq<bv32> {
    [0xd4326d90, 0xd0f37027, 0xddb056fe, 0xd9714b49, 0xc7361b4c, 0xc3f706fb, 0xceb42022, 0xca753d95,
     0xf23a8028, 0xf6fb9d9f, 0xfbb8bb46, 0xff79a6f1, 0xe13ef6f4, 0xe5ffeb43, 0xe8bccd9a, 0xec7dd02d]
  }

  function Be4(): seq<bv32> {
    [0x34867077, 0x30476dc0, 0x3d044b19, 0x39c556ae, 0x278206ab, 0x23431b1c, 0x2e003dc5, 0x2ac12072,
     0x128e9dcf, 0x164f8078, 0x1b0ca6a1, 0x1fcdbb16, 0x018aeb13, 0x054bf6a4, 0x0808d07d, 0x0cc9cdca]
  }

  function Be5(): seq<bv32> {
    [0x7897ab07, 0x7c56b6b0, 0x71159069, 0x75d48dde, 0x6b93dddb, 0x6f52c06c, 0x6211e6b5, 0x66d0fb02,
     0x5e9f46bf, 0x5a5e5b08, 0x571d7dd1, 0x53dc6066, 0x4d9b3063, 0x495a2dd4, 0x44190b0d, 0x40d816ba]
  }

  function Be6(): seq<bv32> {
    [0xaca5c697, 0xa864db20, 0xa527fdf9, 0xa1e6e04e, 0xbfa1b04b, 0xbb60adfc, 0xb6238b25, 0xb2e29692,
     0x8aad2b2f, 0x8e6c3698, 0x832f1041, 0x87ee0df6, 0x99a95df3, 0x9d684044, 0x902b669d, 0x94ea7b2a]
  }

  function Be7(): seq<bv32> {
    [0xe0b41de7, 0xe4750050, 0xe9362689, 0xedf73b3e, 0xf3b06b3b, 0xf771768c, 0xfa325055, 0xfef34de2,
     0xc6bcf05f, 0xc27dede8, 0xcf3ecb31, 0xcbffd686, 0xd5b88683, 0xd1799b34, 0xdc3abded, 0xd8fba05a]
  }

  function Be8(): seq<bv32> {
    [0x690ce0ee, 0x6dcdfd59, 0x608edb80, 0x644fc637, 0x7a089632, 0x7ec98b85, 0x738aad5c, 0x774bb0eb,
     0x4f040d56, 0x4bc510e1, 0x46863638, 0x42472b8f, 0x5c007b8a, 0x58c1663d, 0x558240e4, 0x51435d53]
  }

  function Be9(): seq<bv32> {
    [0x251d3b9e, 0x21dc2629, 0x2c9f00f0, 0x285e1d47, 0x36194d42, 0x32d850f5, 0x3f9b762c, 0x3b5a6b9b,
     0x0315d626, 0x07d4cb91, 0x0a97ed48, 0x0e56f0ff, 0x1011a0fa, 0x14d0bd4d, 0x19939b94, 0x1d528623]
  }

  function BeA(): seq<bv32> {
    [0xf12f560e, 0xf5ee4bb9, 0xf8ad6d60, 0xfc6c70d7, 0xe22b20d2, 0xe6ea3d65, 0xeba91bbc, 0xef68060b,
     0xd727bbb6, 0xd3e6a601, 0xdea580d8, 0xda649d6f, 0xc423cd6a, 0xc0e2d0dd, 0xcda1f604, 0xc960ebb3]
  }

  function BeB(): seq<bv32> {
    [0xbd3e8d7e, 0xb9ff90c9, 0xb4bcb610, 0xb07daba7, 0xae3afba2, 0xaafbe615, 0xa7b8c0cc, 0xa379dd7b,
     0x9b3660c6, 0x9ff77d71, 0x92b45ba8, 0x9675461f, 0x8832161a, 0x8cf30bad, 0x81b02d74, 0x857130c3]
  }

  function BeC(): seq<bv32> {
    [0x5d8a9099, 0x594b8d2e, 0x5408abf7, 0x50c9b640, 0x4e8ee645, 0x4a4ffbf2, 0x470cdd2b, 0x43cdc09c,
     0x7b827d21, 0x7f436096, 0x7200464f, 0x76c15bf8, 0x68860bfd, 0x6c47164a, 0x61043093, 0x65c52d24]
  }

  function BeD(): seq<bv32> {
    [0x119b4be9, 0x155a565e, 0x18197087, 0x1cd86d30, 0x029f3d35, 0x065e2082, 0x0b1d065b, 0x0fdc1bec,
     0x3793a651, 0x3352bbe6, 0x3e119d3f, 0x3ad08088, 0x2497d08d, 0x2056cd3a, 0x2d15ebe3, 0x29d4f654]
  }

  function BeE(): seq<bv32> {
    [0xc5a92679, 0xc1683bce, 0xcc2b1d17, 0xc8ea00a0, 0xd6ad50a5, 0xd26c4d12, 0xdf2f6bcb, 0xdbee767c,
     0xe3a1cbc1, 0xe760d676, 0xea23f0af, 0xeee2ed18, 0xf0a5bd1d, 0xf464a0aa, 0xf9278673, 0xfde69bc4]
  }

  function BeF(): seq<bv32> {
    [0x89b8fd09, 0x8d79e0be, 0x803ac667, 0x84fbdbd0, 0x9abc8bd5, 0x9e7d9662, 0x933eb0bb, 0x97ffad0c,
     0xafb010b1, 0xab710d06, 0xa6322bdf, 0xa2f33668, 0xbcb4666d, 0xb8757bda, 0xb5365d03, 0xb1f740b4]
  }

  // ----- kernel/util/bitrev.c, byte_rev_table

  function Rev0(): seq<bv32> {
    [0x00, 0x80, 0x40, 0xc0, 0x20, 0xa0, 0x60, 0xe0, 0x10, 0x90, 0x50, 0xd0, 0x30, 0xb0, 0x70, 0xf0]
  }

  function Rev1(): seq<bv32> {
    [0x08, 0x88, 0x48, 0xc8, 0x28, 0xa8, 0x68, 0xe8, 0x18, 0x98, 0x58, 0xd8, 0x38, 0xb8, 0x78, 0xf8]
  }

  function Rev2(): seq<bv32> {
    [0x04, 0x84, 0x44, 0xc4, 0x24, 0xa4, 0x64, 0xe4, 0x14, 0x94, 0x54, 0xd4, 0x34, 0xb4, 0x74, 0xf4]
  }

  function Rev3(): seq<bv32> {
    [0x0c, 0x8c, 0x4c, 0xcc, 0x2c, 0xac, 0x6c, 0xec, 0x1c, 0x9c, 0x5c, 0xdc, 0x3c, 0xbc, 0x7c, 0xfc]
  }

  function Rev4(): seq<bv32> {
    [0x02, 0x82, 0x42, 0xc2, 0x22, 0xa2, 0x62, 0xe2, 0x12, 0x92, 0x52, 0xd2, 0x32, 0xb2, 0x72, 0xf2]
  }

  function Rev5(): seq<bv32> {
    [0x0a, 0x8a, 0x4a, 0xca, 0x2a, 0xaa, 0x6a, 0xea, 0x1a, 0x9a, 0x5a, 0xda, 0x3a, 0xba, 0x7a, 0xfa]
  }

  function Rev6(): seq<bv32> {
    [0x06, 0x86, 0x46, 0xc6, 0x26, 0xa6, 0x66, 0xe6, 0x16, 0x96, 0x56, 0xd6, 0x36, 0xb6, 0x76, 0xf6]
  }

  function Rev7(): seq<bv32> {
    [0x0e, 0x8e, 0x4e, 0xce, 0x2e, 0xae, 0x6e, 0xee, 0x1e, 0x9e, 0x5e, 0xde, 0x3e, 0xbe, 0x7e, 0xfe]
  }

  function Rev8(): seq<bv32> {
    [0x01, 0x81, 0x41, 0xc1, 0x21, 0xa1, 0x61, 0xe1, 0x11, 0x91, 0x51, 0xd1, 0x31, 0xb1, 0x71, 0xf1]
  }

  function Rev9(): seq<bv32> {
    [0x09, 0x89, 0x49, 0xc9, 0x29, 0xa9, 0x69, 0xe9, 0x19, 0x99, 0x59, 0xd9, 0x39, 0xb9, 0x79, 0xf9]
  }

  function RevA(): seq<bv32> {
    [0x05, 0x85, 0x45, 0xc5, 0x25, 0xa5, 0x65, 0xe5, 0x15, 0x95, 0x55, 0xd5, 0x35, 0xb5, 0x75, 0xf5]
  }

  function RevB(): seq<bv32> {
    [0x0d, 0x8d, 0x4d, 0xcd, 0x2d, 0xad, 0x6d, 0xed, 0x1d, 0x9d, 0x5d, 0xdd, 0x3d, 0xbd, 0x7d, 0xfd]
  }

  function RevC(): seq<bv32> {
    [0x03, 0x83, 0x43, 0xc3, 0x23, 0xa3, 0x63, 0xe3, 0x13, 0x93, 0x53, 0xd3, 0x33, 0xb3, 0x73, 0xf3]
  }

  function RevD(): seq<bv32> {
    [0x0b, 0x8b, 0x4b, 0xcb, 0x2b, 0xab, 0x6b, 0xeb, 0x1b, 0x9b, 0x5b, 0xdb, 0x3b, 0xbb, 0x7b, 0xfb]
  }

  function RevE(): seq<bv32> {
    [0x07, 0x87, 0x47, 0xc7, 0x27, 0xa7, 0x67, 0xe7, 0x17, 0x97, 0x57, 0xd7, 0x37, 0xb7, 0x77, 0xf7]
  }

  function RevF(): seq<bv32> {
    [0x0f, 0x8f, 0x4f, 0xcf, 0x2f, 0xaf, 0x6f, 0xef, 0x1f, 0x9f, 0x5f, 0xdf, 0x3f, 0xbf, 0x7f, 0xff]
  }

  function RowLe(k: bv32): (r: seq<bv32>)
    requires k < 16
    ensures |r| == 16
  {
    match k
    case 0 => Le0()
    case 1 => Le1()
    case 2 => Le2()
    case 3 => Le3()
    case 4 => Le4()
    case 5 => Le5()
    case 6 => Le6()
    case 7 => Le7()
    case 8 => Le8()
    case 9 => Le9()
    case 10 => LeA()
    case 11 => LeB()
    case 12 => LeC()
    case 13 => LeD()
    case 14 => LeE()
    case _ => LeF()
  }

  function TableLe(x: bv32): bv32
    requires x < 256
  {
    RowLe(x >> 4)[(x & 15) as int]
  }

  function RowBe(k: bv32): (r: seq<bv32>)
    requires k < 16
    ensures |r| == 16
  {
    match k
    case 0 => Be0()
    case 1 => Be1()
    case 2 => Be2()
    case 3 => Be3()
    case 4 => Be4()
    case 5 => Be5()
    case 6 => Be6()
    case 7 => Be7()
    case 8 => Be8()
    case 9 => Be9()
    case 10 => BeA()
    case 11 => BeB()
    case 12 => BeC()
    case 13 => BeD()
    case 14 => BeE()
    case _ => BeF()
  }

  function TableBe(x: bv32): bv32
    requires x < 256
  {
    RowBe(x >> 4)[(x & 15) as int]
  }

  function RowRev(k: bv32): (r: seq<bv32>)
    requires k < 16
    ensures |r| == 16
  {
    match k
    case 0 => Rev0()
    case 1 => Rev1()
    case 2 => Rev2()
    case 3 => Rev3()
    case 4 => Rev4()
    case 5 => Rev5()
    case 6 => Rev6()
    case 7 => Rev7()
    case 8 => Rev8()
    case 9 => Rev9()
    case 10 => RevA()
    case 11 => RevB()
    case 12 => RevC()
    case 13 => RevD()
    case 14 => RevE()
    case _ => RevF()
  }

  function TableRev(x: bv32): bv32
    requires x < 256
  {
    RowRev(x >> 4)[(x & 15) as int]
  }

  lemma HeadsLow()
    ensures StepLe(0x0) == 0x00000000
      && StepLe(0x10) == 0x1db71064
      && StepLe(0x20) == 0x3b6e20c8
      && StepLe(0x30) == 0x26d930ac
      && StepLe(0x40) == 0x76dc4190
      && StepLe(0x50) == 0x6b6b51f4
      && StepLe(0x60) == 0x4db26158
      && StepLe(0x70) == 0x5005713c
  {
  }

  lemma HeadsHigh()
    ensures StepLe(0x80) == 0xedb88320
      && StepLe(0x90) == 0xf00f9344
      && StepLe(0xa0) == 0xd6d6a3e8
      && StepLe(0xb0) == 0xcb61b38c
      && StepLe(0xc0) == 0x9b64c2b0
      && StepLe(0xd0) == 0x86d3d2d4
      && StepLe(0xe0) == 0xa00ae278
      && StepLe(0xf0) == 0xbdbdf21c
  {
  }

  lemma UnitsLow()
    ensures StepLe(0x0) == 0x00000000
      && StepLe(0x1) == 0x77073096
      && StepLe(0x2) == 0xee0e612c
      && StepLe(0x3) == 0x990951ba
      && StepLe(0x4) == 0x076dc419
      && StepLe(0x5) == 0x706af48f
      && StepLe(0x6) == 0xe963a535
      && StepLe(0x7) == 0x9e6495a3
  {
  }

  lemma UnitsHigh()
    ensures StepLe(0x8) == 0x0edb8832
      && StepLe(0x9) == 0x79dcb8a4
      && StepLe(0xa) == 0xe0d5e91e
      && StepLe(0xb) == 0x97d2d988
      && StepLe(0xc) == 0x09b64c2b
      && StepLe(0xd) == 0x7eb17cbd
      && StepLe(0xe) == 0xe7b82d07
      && StepLe(0xf) == 0x90bf1d91
  {
  }

  lemma FirstRowLe(y: bv32)
    requires y < 16
    ensures Le0()[y as int] == StepLe(y)
  {
    UnitsLow();
    UnitsHigh();
    hide StepLe;
  }

  lemma Offset(h: bv32, y: bv32)
    requires y < 16 && h & 15 == 0
    ensures Xor(StepLe(h), Le0()[y as int]) == StepLe(h | y)
  {
    FirstRowLe(y);
    assert Xor(h, y) == h | y;
    hide StepLe, Xor, Le0;
    StepLeXor(h, y);
  }

  lemma XorLe1(y: bv32)
    requires y < 16
    ensures Le1()[y as int] == Xor(0x1db71064, Le0()[y as int])
  {
  }

  lemma XorLe2(y: bv32)
    requires y < 16
    ensures Le2()[y as int] == Xor(0x3b6e20c8, Le0()[y as int])
  {
  }

  lemma XorLe3(y: bv32)
    requires y < 16
    ensures Le3()[y as int] == Xor(0x26d930ac, Le0()[y as int])
  {
  }

  lemma XorLe4(y: bv32)
    requires y < 16
    ensures Le4()[y as int] == Xor(0x76dc4190, Le0()[y as int])
  {
  }

  lemma XorLe5(y: bv32)
    requires y < 16
    ensures Le5()[y as int] == Xor(0x6b6b51f4, Le0()[y as int])
  {
  }

  lemma XorLe6(y: bv32)
    requires y < 16
    ensures Le6()[y as int] == Xor(0x4db26158, Le0()[y as int])
  {
  }

  lemma XorLe7(y: bv32)
    requires y < 16
    ensures Le7()[y as int] == Xor(0x5005713c, Le0()[y as int])
  {
  }

  lemma XorLe8(y: bv32)
    requires y < 16
    ensures Le8()[y as int] == Xor(0xedb88320, Le0()[y as int])
  {
  }

  lemma XorLe9(y: bv32)
    requires y < 16
    ensures Le9()[y as int] == Xor(0xf00f9344, Le0()[y as int])
  {
  }

  lemma XorLeA(y: bv32)
    requires y < 16
    ensures LeA()[y as int] == Xor(0xd6d6a3e8, Le0()[y as int])
  {
  }

  lemma XorLeB(y: bv32)
    requires y < 16
    ensures LeB()[y as int] == Xor(0xcb61b38c, Le0()[y as int])
  {
  }

  lemma XorLeC(y: bv32)
    requires y < 16
    ensures LeC()[y as int] == Xor(0x9b64c2b0, Le0()[y as int])
  {
  }

  lemma XorLeD(y: bv32)
    requires y < 16
    ensures LeD()[y as int] == Xor(0x86d3d2d4, Le0()[y as int])
  {
  }

  lemma XorLeE(y: bv32)
    requires y < 16
    ensures LeE()[y as int] == Xor(0xa00ae278, Le0()[y as int])
  {
  }

  lemma XorLeF(y: bv32)
    requires y < 16
    ensures LeF()[y as int] == Xor(0xbdbdf21c, Le0()[y as int])
  {
  }

  lemma EntryLe1(y: bv32)
    requires y < 16
    ensures Le1()[y as int] == StepLe(0x10 | y)
  {
    HeadsLow();
    hide StepLe, Xor, Le0, Le1;
    XorLe1(y);
    Offset(0x10, y);
  }

  lemma EntryLe2(y: bv32)
    requires y < 16
    ensures Le2()[y as int] == StepLe(0x20 | y)
  {
    HeadsLow();
    hide StepLe, Xor, Le0, Le2;
    XorLe2(y);
    Offset(0x20, y);
  }

  lemma EntryLe3(y: bv32)
    requires y < 16
    ensures Le3()[y as int] == StepLe(0x30 | y)
  {
    HeadsLow();
    hide StepLe, Xor, Le0, Le3;
    XorLe3(y);
    Offset(0x30, y);
  }

  lemma EntryLe4(y: bv32)
    requires y < 16
    ensures Le4()[y as int] == StepLe(0x40 | y)
  {
    HeadsLow();
    hide StepLe, Xor, Le0, Le4;
    XorLe4(y);
    Offset(0x40, y);
  }

  lemma EntryLe5(y: bv32)
    requires y < 16
    ensures Le5()[y as int] == StepLe(0x50 | y)
  {
    HeadsLow();
    hide StepLe, Xor, Le0, Le5;
    XorLe5(y);
    Offset(0x50, y);
  }

  lemma EntryLe6(y: bv32)
    requires y < 16
    ensures Le6()[y as int] == StepLe(0x60 | y)
  {
    HeadsLow();
    hide StepLe, Xor, Le0, Le6;
    XorLe6(y);
    Offset(0x60, y);
  }

  lemma EntryLe7(y: bv32)
    requires y < 16
    ensures Le7()[y as int] == StepLe(0x70 | y)
  {
    HeadsLow();
    hide StepLe, Xor, Le0, Le7;
    XorLe7(y);
    Offset(0x70, y);
  }

  lemma EntryLe8(y: bv32)
    requires y < 16
    ensures Le8()[y as int] == StepLe(0x80 | y)
  {
    HeadsHigh();
    hide StepLe, Xor, Le0, Le8;
    XorLe8(y);
    Offset(0x80, y);
  }

  lemma EntryLe9(y: bv32)
    requires y < 16
    ensures Le9()[y as int] == StepLe(0x90 | y)
  {
    HeadsHigh();
    hide StepLe, Xor, Le0, Le9;
    XorLe9(y);
    Offset(0x90, y);
  }

  lemma EntryLeA(y: bv32)
    requires y < 16
    ensures LeA()[y as int] == StepLe(0xa0 | y)
  {
    HeadsHigh();
    hide StepLe, Xor, Le0, LeA;
    XorLeA(y);
    Offset(0xa0, y);
  }

  lemma EntryLeB(y: bv32)
    requires y < 16
    ensures LeB()[y as int] == StepLe(0xb0 | y)
  {
    HeadsHigh();
    hide StepLe, Xor, Le0, LeB;
    XorLeB(y);
    Offset(0xb0, y);
  }

  lemma EntryLeC(y: bv32)
    requires y < 16
    ensures LeC()[y as int] == StepLe(0xc0 | y)
  {
    HeadsHigh();
    hide StepLe, Xor, Le0, LeC;
    XorLeC(y);
    Offset(0xc0, y);
  }

  lemma EntryLeD(y: bv32)
    requires y < 16
    ensures LeD()[y as int] == StepLe(0xd0 | y)
  {
    HeadsHigh();
    hide StepLe, Xor, Le0, LeD;
    XorLeD(y);
    Offset(0xd0, y);
  }

  lemma EntryLeE(y: bv32)
    requires y < 16
    ensures LeE()[y as int] == StepLe(0xe0 | y)
  {
    HeadsHigh();
    hide StepLe, Xor, Le0, LeE;
    XorLeE(y);
    Offset(0xe0, y);
  }

  lemma EntryLeF(y: bv32)
    requires y < 16
    ensures LeF()[y as int] == StepLe(0xf0 | y)
  {
    HeadsHigh();
    hide StepLe, Xor, Le0, LeF;
    XorLeF(y);
    Offset(0xf0, y);
  }

  lemma EntryBe0(y: bv32)
    requires y < 16
    ensures Be0()[y as int] == StepBe((0x0 | y) << 24)
  {
  }

  lemma EntryBe1(y: bv32)
    requires y < 16
    ensures Be1()[y as int] == StepBe((0x10 | y) << 24)
  {
  }

  lemma EntryBe2(y: bv32)
    requires y < 16
    ensures Be2()[y as int] == StepBe((0x20 | y) << 24)
  {
  }

  lemma EntryBe3(y: bv32)
    requires y < 16
    ensures Be3()[y as int] == StepBe((0x30 | y) << 24)
  {
  }

  lemma EntryBe4(y: bv32)
    requires y < 16
    ensures Be4()[y as int] == StepBe((0x40 | y) << 24)
  {
  }

  lemma EntryBe5(y: bv32)
    requires y < 16
    ensures Be5()[y as int] == StepBe((0x50 | y) << 24)
  {
  }

  lemma EntryBe6(y: bv32)
    requires y < 16
    ensures Be6()[y as int] == StepBe((0x60 | y) << 24)
  {
  }

  lemma EntryBe7(y: bv32)
    requires y < 16
    ensures Be7()[y as int] == StepBe((0x70 | y) << 24)
  {
  }

  lemma EntryBe8(y: bv32)
    requires y < 16
    ensures Be8()[y as int] == StepBe((0x80 | y) << 24)
  {
  }

  lemma EntryBe9(y: bv32)
    requires y < 16
    ensures Be9()[y as int] == StepBe((0x90 | y) << 24)
  {
  }

  lemma EntryBeA(y: bv32)
    requires y < 16
    ensures BeA()[y as int] == StepBe((0xa0 | y) << 24)
  {
  }

  lemma EntryBeB(y: bv32)
    requires y < 16
    ensures BeB()[y as int] == StepBe((0xb0 | y) << 24)
  {
  }

  lemma EntryBeC(y: bv32)
    requires y < 16
    ensures BeC()[y as int] == StepBe((0xc0 | y) << 24)
  {
  }

  lemma EntryBeD(y: bv32)
    requires y < 16
    ensures BeD()[y as int] == StepBe((0xd0 | y) << 24)
  {
  }

  lemma EntryBeE(y: bv32)
    requires y < 16
    ensures BeE()[y as int] == StepBe((0xe0 | y) << 24)
  {
  }

  lemma EntryBeF(y: bv32)
    requires y < 16
    ensures BeF()[y as int] == StepBe((0xf0 | y) << 24)
  {
  }

  lemma EntryRev0(y: bv32)
    requires y < 16
    ensures Rev0()[y as int] == Reverse8(0x0 | y)
  {
  }

  lemma EntryRev1(y: bv32)
    requires y < 16
    ensures Rev1()[y as int] == Reverse8(0x10 | y)
  {
  }

  lemma EntryRev2(y: bv32)
    requires y < 16
    ensures Rev2()[y as int] == Reverse8(0x20 | y)
  {
  }

  lemma EntryRev3(y: bv32)
    requires y < 16
    ensures Rev3()[y as int] == Reverse8(0x30 | y)
  {
  }

  lemma EntryRev4(y: bv32)
    requires y < 16
    ensures Rev4()[y as int] == Reverse8(0x40 | y)
  {
  }

  lemma EntryRev5(y: bv32)
    requires y < 16
    ensures Rev5()[y as int] == Reverse8(0x50 | y)
  {
  }

  lemma EntryRev6(y: bv32)
    requires y < 16
    ensures Rev6()[y as int] == Reverse8(0x60 | y)
  {
  }

  lemma EntryRev7(y: bv32)
    requires y < 16
    ensures Rev7()[y as int] == Reverse8(0x70 | y)
  {
  }

  lemma EntryRev8(y: bv32)
    requires y < 16
    ensures Rev8()[y as int] == Reverse8(0x80 | y)
  {
  }

  lemma EntryRev9(y: bv32)
    requires y < 16
    ensures Rev9()[y as int] == Reverse8(0x90 | y)
  {
  }

  lemma EntryRevA(y: bv32)
    requires y < 16
    ensures RevA()[y as int] == Reverse8(0xa0 | y)
  {
  }

  lemma EntryRevB(y: bv32)
    requires y < 16
    ensures RevB()[y as int] == Reverse8(0xb0 | y)
  {
  }

  lemma EntryRevC(y: bv32)
    requires y < 16
    ensures RevC()[y as int] == Reverse8(0xc0 | y)
  {
  }

  lemma EntryRevD(y: bv32)
    requires y < 16
    ensures RevD()[y as int] == Reverse8(0xd0 | y)
  {
  }

  lemma EntryRevE(y: bv32)
    requires y < 16
    ensures RevE()[y as int] == Reverse8(0xe0 | y)
  {
  }

  lemma EntryRevF(y: bv32)
    requires y < 16
    ensures RevF()[y as int] == Reverse8(0xf0 | y)
  {
  }

  lemma EntryLe(k: bv32, y: bv32)
    requires k < 16 && y < 16
    ensures RowLe(k)[y as int] == StepLe((k << 4) | y)
  {
    hide StepLe, Le0, Le1, Le2, Le3, Le4, Le5, Le6, Le7, Le8, Le9, LeA, LeB, LeC, LeD, LeE, LeF;
    match k
    case 0 => FirstRowLe(y);
    case 1 => EntryLe1(y);
    case 2 => EntryLe2(y);
    case 3 => EntryLe3(y);
    case 4 => EntryLe4(y);
    case 5 => EntryLe5(y);
    case 6 => EntryLe6(y);
    case 7 => EntryLe7(y);
    case 8 => EntryLe8(y);
    case 9 => EntryLe9(y);
    case 10 => EntryLeA(y);
    case 11 => EntryLeB(y);
    case 12 => EntryLeC(y);
    case 13 => EntryLeD(y);
    case 14 => EntryLeE(y);
    case _ => EntryLeF(y);
  }

  lemma EntryBe(k: bv32, y: bv32)
    requires k < 16 && y < 16
    ensures RowBe(k)[y as int] == StepBe(((k << 4) | y) << 24)
  {
    hide StepBe, Be0, Be1, Be2, Be3, Be4, Be5, Be6, Be7, Be8, Be9, BeA, BeB, BeC, BeD, BeE, BeF;
    match k
    case 0 => EntryBe0(y);
    case 1 => EntryBe1(y);
    case 2 => EntryBe2(y);
    case 3 => EntryBe3(y);
    case 4 => EntryBe4(y);
    case 5 => EntryBe5(y);
    case 6 => EntryBe6(y);
    case 7 => EntryBe7(y);
    case 8 => EntryBe8(y);
    case 9 => EntryBe9(y);
    case 10 => EntryBeA(y);
    case 11 => EntryBeB(y);
    case 12 => EntryBeC(y);
    case 13 => EntryBeD(y);
    case 14 => EntryBeE(y);
    case _ => EntryBeF(y);
  }

  lemma EntryRev(k: bv32, y: bv32)
    requires k < 16 && y < 16
    ensures RowRev(k)[y as int] == Reverse8((k << 4) | y)
  {
    hide Reverse8, Rev0, Rev1, Rev2, Rev3, Rev4, Rev5, Rev6, Rev7, Rev8, Rev9, RevA, RevB, RevC, RevD, RevE, RevF;
    match k
    case 0 => EntryRev0(y);
    case 1 => EntryRev1(y);
    case 2 => EntryRev2(y);
    case 3 => EntryRev3(y);
    case 4 => EntryRev4(y);
    case 5 => EntryRev5(y);
    case 6 => EntryRev6(y);
    case 7 => EntryRev7(y);
    case 8 => EntryRev8(y);
    case 9 => EntryRev9(y);
    case 10 => EntryRevA(y);
    case 11 => EntryRevB(y);
    case 12 => EntryRevC(y);
    case 13 => EntryRevD(y);
    case 14 => EntryRevE(y);
    case _ => EntryRevF(y);
  }

  lemma Nibbles(x: bv32)
    requires x < 256
    ensures x >> 4 < 16 && x & 15 < 16
    ensures ((x >> 4) << 4) | (x & 15) == x
  {
  }

  /** Every entry of the little-endian table is eight steps of its index. */
  lemma TableLeIsStep(x: bv32)
    requires x < 256
    ensures TableLe(x) == StepLe(x)
  {
    hide StepLe, RowLe;
    Nibbles(x);
    EntryLe(x >> 4, x & 15);
  }

  /** Every entry of the big-endian table is eight steps of its index in the
      top byte. */
  lemma TableBeIsStep(x: bv32)
    requires x < 256
    ensures TableBe(x) == StepBe(x << 24)
  {
    hide StepBe, RowBe;
    Nibbles(x);
    EntryBe(x >> 4, x & 15);
  }

  lemma TableRevIsReversal(x: bv32)
    requires x < 256
    ensures TableRev(x) == Reverse8(x)
  {
    hide Reverse8, RowRev;
    Nibbles(x);
    EntryRev(x >> 4, x & 15);
  }
}
