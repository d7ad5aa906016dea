/** The table-driven CRC-32 of USER/common.c: a loop over a 256-entry table, and the checksum it computes. */
module Crc32 {

  type Word = bv32

  /** One `uint8_t`, as the `uint32_t` it is promoted to. */
  type Byte = x: bv32 | x < 256

  /** The reflected polynomial of section 8 of RFC 1952. */
  const POLY: Word := 0xedb8_8320

  /** One bit, and one byte, of the bitwise algorithm. */
  function Bit(c: Word): Word {
    if c & 1 != 0 then Xor(POLY, c >> 1) else c >> 1
  }

  function Bits8(c: Word): Word {
    Bit(Bit(Bit(Bit(Bit(Bit(Bit(Bit(c))))))))
  }

  /** `a ^ b`, `h << 1`, `h << 8` and the low byte. */
  function Xor(a: Word, b: Word): Word { a ^ b }

  function Up1(h: Word): Word { h << 1 }

  function Up8(h: Word): Word { h << 8 }

  function Down8(c: Word): Word { c >> 8 }

  function LowByte(c: Word): Byte { c & 0xff }

  // ------------------------------------------------------------------ the computation

  /** The register after the bytes of `buf`, fed in bit by bit from register `c`. */
  function Feed(c: Word, buf: seq<Byte>): Word {
    if buf == [] then c else Bits8(Xor(Feed(c, buf[..|buf| - 1]), buf[|buf| - 1]))
  }

  const ONES: Word := 0xffff_ffff

  /** The CRC-32 of section 8 of RFC 1952: all ones in, complement out. */
  function Bitwise(buf: seq<Byte>): Word {
    Xor(Feed(ONES, buf), ONES)
  }

  /** One turn of the loop: the table entry for the low byte, and the rest shifted down. */
  function TableStep(c: Word, b: Byte): Word {
    Xor(Entry(LowByte(Xor(c, b))), Down8(c))
  }

  /** The loop of `CRC32` and `CRC32Extend`. */
  method FeedByTable(buf: array<Byte>, start: Word) returns (crc: Word)
    ensures crc == Feed(start, buf[..])
  {
    hide Bits8, Entry, Xor, TableStep, Feed;
    crc := start;
    FeedNothing(start);
    for i := 0 to buf.Length
      invariant crc == Feed(start, buf[..i])
    {
      StepIsBitwise(crc, buf[i]);
      FeedNext(start, buf[..i], buf[i]);
      assert buf[..i + 1] == buf[..i] + [buf[i]];
      crc := TableStep(crc, buf[i]);
    }
    assert buf[..buf.Length] == buf[..];
  }

  /** `CRC32Extend`. */
  method CRC32Extend(buf: array<Byte>, temp: Word, flag: Byte) returns (crc_e: Word)
    ensures crc_e == if flag != 0 then Xor(Feed(temp, buf[..]), ONES) else Feed(temp, buf[..])
  {
    hide Xor, Feed;
    var crc := FeedByTable(buf, temp);
    if flag != 0 {
      crc_e := Xor(crc, ONES);
    } else {
      crc_e := crc;
    }
  }

  /** `CRC32`: on every buffer the bitwise checksum. */
  method CRC32(buf: array<Byte>) returns (r: Word)
    ensures r == Bitwise(buf[..])
  {
    hide Xor, Feed;
    var crc := FeedByTable(buf, ONES);
    r := Xor(crc, ONES);
  }

  lemma FeedNothing(c: Word)
    ensures Feed(c, []) == c
  {
  }

  lemma FeedNext(c: Word, buf: seq<Byte>, b: Byte)
    ensures Feed(c, buf + [b]) == Bits8(Xor(Feed(c, buf), b))
  {
    hide Bits8, Xor;
    assert (buf + [b])[..|buf|] == buf;
  }

  // ------------------------------------------------------------------ the table step is eight bit steps

  lemma XorAssociates(a: Word, b: Word, c: Word)
    ensures Xor(a, Xor(b, c)) == Xor(Xor(a, b), c)
  {
  }

  lemma LowBitAbove(c: Word, h: Word)
    ensures Xor(c, Up1(h)) & 1 == c & 1
  {
    assert (c ^ (h << 1)) & 1 == c & 1;
  }

  lemma ShiftedXor(c: Word, u: Word)
    ensures (c ^ u) >> 1 == (c >> 1) ^ (u >> 1)
  {
  }

  lemma ShiftXor(c: Word, u: Word)
    ensures Xor(c, u) >> 1 == Xor(c >> 1, u >> 1)
  {
    hide Xor;
    XorIs(c, u);
    XorIs(c >> 1, u >> 1);
    ShiftedXor(c, u);
  }

  lemma XorIs(a: Word, b: Word)
    ensures Xor(a, b) == a ^ b
  {
  }

  lemma ShiftBack(h: Word)
    requires h < 0x8000_0000
    ensures Up1(h) >> 1 == h
  {
  }

  /** A bit step leaves alone what lies above the lowest bit, but for moving it down. */
  lemma BitAbove(c: Word, h: Word)
    requires h < 0x8000_0000
    ensures Bit(Xor(c, Up1(h))) == Xor(Bit(c), h)
  {
    hide Xor, Up1;
    LowBitAbove(c, h);
    ShiftXor(c, Up1(h));
    ShiftBack(h);
    XorAssociates(POLY, c >> 1, h);
  }

  lemma ShiftMono(h: Word, bound: Word)
    requires h < bound < 0x8000_0000
    ensures h << 1 < bound << 1
  {
  }

  lemma EightShifts(h: Word)
    ensures (((((((h << 1) << 1) << 1) << 1) << 1) << 1) << 1) << 1 == h << 8
  {
  }

  /** Eight single shifts are one by eight, and none of the first seven reaches the top bit. */
  lemma Climb(h: Word)
    requires h < 0x0100_0000
    ensures var h1 := Up1(h);
      var h2 := Up1(h1);
      var h3 := Up1(h2);
      var h4 := Up1(h3);
      var h5 := Up1(h4);
      var h6 := Up1(h5);
      var h7 := Up1(h6);
      && h < 0x8000_0000 && h1 < 0x8000_0000 && h2 < 0x8000_0000 && h3 < 0x8000_0000 && h4 < 0x8000_0000
      && h5 < 0x8000_0000 && h6 < 0x8000_0000 && h7 < 0x8000_0000 && Up1(h7) == Up8(h)
  {
    ShiftMono(h, 0x0100_0000);
    var h1 := Up1(h);
    ShiftMono(h1, 0x0200_0000);
    var h2 := Up1(h1);
    ShiftMono(h2, 0x0400_0000);
    var h3 := Up1(h2);
    ShiftMono(h3, 0x0800_0000);
    var h4 := Up1(h3);
    ShiftMono(h4, 0x1000_0000);
    var h5 := Up1(h4);
    ShiftMono(h5, 0x2000_0000);
    var h6 := Up1(h5);
    ShiftMono(h6, 0x4000_0000);
    EightShifts(h);
  }

  /** Eight bit steps consume the low byte; what lies above it comes through, moved down by eight. */
  lemma ByteAbove(c: Word, h: Word)
    requires h < 0x0100_0000
    ensures Bits8(Xor(c, Up8(h))) == Xor(Bits8(c), h)
  {
    hide Bit, Xor, Up1, Up8;
    Climb(h);
    var h1 := Up1(h);
    var h2 := Up1(h1);
    var h3 := Up1(h2);
    var h4 := Up1(h3);
    var h5 := Up1(h4);
    var h6 := Up1(h5);
    var h7 := Up1(h6);
    BitAbove(c, h7);
    BitAbove(Bit(c), h6);
    BitAbove(Bit(Bit(c)), h5);
    BitAbove(Bit(Bit(Bit(c))), h4);
    BitAbove(Bit(Bit(Bit(Bit(c)))), h3);
    BitAbove(Bit(Bit(Bit(Bit(Bit(c))))), h2);
    BitAbove(Bit(Bit(Bit(Bit(Bit(Bit(c)))))), h1);
    BitAbove(Bit(Bit(Bit(Bit(Bit(Bit(Bit(c))))))), h);
  }

  lemma SplitWord(x: Word)
    ensures x == Xor(LowByte(x), Up8(Down8(x))) && Down8(x) < 0x0100_0000
  {
  }

  lemma HighBytesSame(c: Word, b: Byte)
    ensures Down8(Xor(c, b)) == Down8(c)
  {
  }

  /** The table-driven step is the bitwise one. */
  lemma StepIsBitwise(c: Word, b: Byte)
    ensures TableStep(c, b) == Bits8(Xor(c, b))
  {
    hide Bits8, Entry, Xor, LowByte, Down8, Up8;
    var low := LowByte(Xor(c, b));
    SplitWord(Xor(c, b));
    HighBytesSame(c, b);
    ByteAbove(low, Down8(c));
    EntryIsBitwise(low);
  }

  // ------------------------------------------------------------------ chaining

  lemma {:induction false} FeedChains(c: Word, a: seq<Byte>, b: seq<Byte>)
    ensures Feed(c, a + b) == Feed(Feed(c, a), b)
  {
    hide Bits8, Xor;
    if b == [] {
      assert a + b == a;
    } else {
      assert (a + b)[..|a + b| - 1] == a + b[..|b| - 1];
      FeedChains(c, a, b[..|b| - 1]);
    }
  }

  /** Calls of `CRC32Extend` over any split give the checksum of the whole. */
  lemma ChainedCallsGiveWhole(a: seq<Byte>, b: seq<Byte>)
    ensures Xor(Feed(Feed(ONES, a), b), ONES) == Bitwise(a + b)
  {
    hide Feed, Xor;
    FeedChains(ONES, a, b);
  }

  // ------------------------------------------------------------------ bursts are detected

  /** The bit step can be undone: the top bit tells whether the polynomial was added. */
  function UndoBit(d: Word): Word {
    if d & 0x8000_0000 != 0 then ((d ^ POLY) << 1) | 1 else d << 1
  }

  lemma UndoSet(c: Word)
    requires c & 1 != 0
    ensures Xor(POLY, c >> 1) & 0x8000_0000 != 0 && ((Xor(POLY, c >> 1) ^ POLY) << 1) | 1 == c
  {
  }

  lemma UndoClear(c: Word)
    requires c & 1 == 0
    ensures (c >> 1) & 0x8000_0000 == 0 && (c >> 1) << 1 == c
  {
  }

  lemma BitUndone(c: Word)
    ensures UndoBit(Bit(c)) == c
  {
    if c & 1 != 0 { UndoSet(c); } else { UndoClear(c); }
  }

  lemma BitInjective(c: Word, d: Word)
    requires Bit(c) == Bit(d)
    ensures c == d
  {
    hide Bit, UndoBit;
    BitUndone(c);
    BitUndone(d);
  }

  lemma Bits8Injective(c: Word, d: Word)
    requires Bits8(c) == Bits8(d)
    ensures c == d
  {
    hide Bit;
    var c1, d1 := Bit(c), Bit(d);
    var c2, d2 := Bit(c1), Bit(d1);
    var c3, d3 := Bit(c2), Bit(d2);
    var c4, d4 := Bit(c3), Bit(d3);
    var c5, d5 := Bit(c4), Bit(d4);
    var c6, d6 := Bit(c5), Bit(d5);
    var c7, d7 := Bit(c6), Bit(d6);
    BitInjective(c7, d7);
    BitInjective(c6, d6);
    BitInjective(c5, d5);
    BitInjective(c4, d4);
    BitInjective(c3, d3);
    BitInjective(c2, d2);
    BitInjective(c1, d1);
    BitInjective(c, d);
  }

  lemma XorTwice(c: Word, b: Word)
    ensures Xor(Xor(c, b), b) == c && Xor(c, Xor(c, b)) == b && Xor(c, 0) == c
  {
  }

  lemma XorInjective(c: Word, d: Word, b: Word)
    requires Xor(c, b) == Xor(d, b)
    ensures c == d
  {
    hide Xor;
    XorTwice(c, b);
    XorTwice(d, b);
  }

  lemma XorCancels(c: Word, x: Word, y: Word)
    requires Xor(c, x) == Xor(c, y)
    ensures x == y
  {
    hide Xor;
    XorTwice(c, x);
    XorTwice(c, y);
  }

  /** The same bytes keep different registers different. */
  lemma {:induction false} SameBytesInjective(c: Word, d: Word, buf: seq<Byte>)
    requires Feed(c, buf) == Feed(d, buf)
    ensures c == d
  {
    hide Bits8, Xor;
    if buf != [] {
      var was, b := buf[..|buf| - 1], buf[|buf| - 1];
      Bits8Injective(Xor(Feed(c, was), b), Xor(Feed(d, was), b));
      XorInjective(Feed(c, was), Feed(d, was), b);
      SameBytesInjective(c, d, was);
    }
  }

  /** Up to four bytes as one little-endian word. */
  function Pack(bytes: seq<Byte>): Word {
    if bytes == [] then 0 else Xor(bytes[0], Up8(Pack(bytes[1..])))
  }

  lemma PackShift(b: Byte, h: Word)
    ensures h == 0 ==> Xor(b, Up8(h)) < 0x0000_0100
    ensures h < 0x0000_0100 ==> Xor(b, Up8(h)) < 0x0001_0000
    ensures h < 0x0001_0000 ==> Xor(b, Up8(h)) < 0x0100_0000
  {
  }

  lemma {:induction false} PackBound(bytes: seq<Byte>)
    requires |bytes| <= 3
    ensures Pack(bytes) < 0x0100_0000
    ensures |bytes| <= 2 ==> Pack(bytes) < 0x0001_0000
    ensures |bytes| <= 1 ==> Pack(bytes) < 0x0000_0100
    ensures |bytes| == 0 ==> Pack(bytes) == 0
  {
    hide Xor, Up8;
    if bytes != [] {
      PackBound(bytes[1..]);
      PackShift(bytes[0], Pack(bytes[1..]));
    }
  }

  /** The two parts of a packed word can be told apart again. */
  lemma Unpack(b: Byte, h: Word)
    requires h < 0x0100_0000
    ensures LowByte(Xor(b, Up8(h))) == b && Down8(Xor(b, Up8(h))) == h
  {
  }

  lemma {:induction false} PackInjective(x: seq<Byte>, y: seq<Byte>)
    requires |x| == |y| <= 4 && Pack(x) == Pack(y)
    ensures x == y
  {
    hide Xor, Up8, Down8, LowByte;
    if x != [] {
      PackBound(x[1..]);
      PackBound(y[1..]);
      Unpack(x[0], Pack(x[1..]));
      Unpack(y[0], Pack(y[1..]));
      PackInjective(x[1..], y[1..]);
      assert x == [x[0]] + x[1..] && y == [y[0]] + y[1..];
    }
  }

  /** `n` bytes' worth of bit steps. */
  function Steps(n: nat, c: Word): Word
    decreases n
  {
    if n == 0 then c else Steps(n - 1, Bits8(c))
  }

  /** Feeding up to four bytes is adding them all at once and then stepping. */
  lemma {:induction false} FeedPacked(c: Word, bytes: seq<Byte>)
    requires |bytes| <= 4
    ensures Feed(c, bytes) == Steps(|bytes|, Xor(c, Pack(bytes)))
    decreases |bytes|
  {
    hide Bits8, Xor, Up8, Feed;
    if bytes == [] {
      XorTwice(c, 0);
      FeedNothing(c);
    } else {
      var b, rest := bytes[0], bytes[1..];
      PackBound(rest);
      ByteAbove(Xor(c, b), Pack(rest));
      XorAssociates(c, b, Up8(Pack(rest)));
      FeedPacked(Bits8(Xor(c, b)), rest);
      FeedOne(c, b);
      FeedChains(c, [b], rest);
      assert bytes == [b] + rest;
    }
  }

  lemma FeedOne(c: Word, b: Byte)
    ensures Feed(c, [b]) == Bits8(Xor(c, b))
  {
    hide Bits8, Xor, Feed;
    FeedNext(c, [], b);
    FeedNothing(c);
    assert [] + [b] == [b];
  }

  lemma {:induction false} StepsInjective(n: nat, c: Word, d: Word)
    requires Steps(n, c) == Steps(n, d)
    ensures c == d
    decreases n
  {
    hide Bits8;
    if n > 0 {
      StepsInjective(n - 1, Bits8(c), Bits8(d));
      Bits8Injective(c, d);
    }
  }

  /** Two buffers that differ only within one window of at most four bytes always have different checksums. */
  lemma BurstDetected(before: seq<Byte>, x: seq<Byte>, y: seq<Byte>, after: seq<Byte>)
    requires |x| == |y| <= 4 && x != y
    ensures Bitwise(before + x + after) != Bitwise(before + y + after)
  {
    hide Feed, Pack, Steps, Xor;
    var c := Feed(ONES, before);
    FeedChains(ONES, before + x, after);
    FeedChains(ONES, before + y, after);
    FeedChains(ONES, before, x);
    FeedChains(ONES, before, y);
    if Bitwise(before + x + after) == Bitwise(before + y + after) {
      XorInjective(Feed(ONES, before + x + after), Feed(ONES, before + y + after), ONES);
      SameBytesInjective(Feed(c, x), Feed(c, y), after);
      FeedPacked(c, x);
      FeedPacked(c, y);
      StepsInjective(|x|, Xor(c, Pack(x)), Xor(c, Pack(y)));
      XorCancels(c, Pack(x), Pack(y));
      PackInjective(x, y);
    }
  }

  // ------------------------------------------------------------------ the table

  /** `crc32tab`, eight entries to a row. */
  const CRC32TAB: seq<seq<Word>> := [
    [0x00000000, 0x77073096, 0xee0e612c, 0x990951ba, 0x076dc419, 0x706af48f, 0xe963a535, 0x9e6495a3],
    [0x0edb8832, 0x79dcb8a4, 0xe0d5e91e, 0x97d2d988, 0x09b64c2b, 0x7eb17cbd, 0xe7b82d07, 0x90bf1d91],
    [0x1db71064, 0x6ab020f2, 0xf3b97148, 0x84be41de, 0x1adad47d, 0x6ddde4eb, 0xf4d4b551, 0x83d385c7],
    [0x136c9856, 0x646ba8c0, 0xfd62f97a, 0x8a65c9ec, 0x14015c4f, 0x63066cd9, 0xfa0f3d63, 0x8d080df5],
    [0x3b6e20c8, 0x4c69105e, 0xd56041e4, 0xa2677172, 0x3c03e4d1, 0x4b04d447, 0xd20d85fd, 0xa50ab56b],
    [0x35b5a8fa, 0x42b2986c, 0xdbbbc9d6, 0xacbcf940, 0x32d86ce3, 0x45df5c75, 0xdcd60dcf, 0xabd13d59],
    [0x26d930ac, 0x51de003a, 0xc8d75180, 0xbfd06116, 0x21b4f4b5, 0x56b3c423, 0xcfba9599, 0xb8bda50f],
    [0x2802b89e, 0x5f058808, 0xc60cd9b2, 0xb10be924, 0x2f6f7c87, 0x58684c11, 0xc1611dab, 0xb6662d3d],
    [0x76dc4190, 0x01db7106, 0x98d220bc, 0xefd5102a, 0x71b18589, 0x06b6b51f, 0x9fbfe4a5, 0xe8b8d433],
    [0x7807c9a2, 0x0f00f934, 0x9609a88e, 0xe10e9818, 0x7f6a0dbb, 0x086d3d2d, 0x91646c97, 0xe6635c01],
    [0x6b6b51f4, 0x1c6c6162, 0x856530d8, 0xf262004e, 0x6c0695ed, 0x1b01a57b, 0x8208f4c1, 0xf50fc457],
    [0x65b0d9c6, 0x12b7e950, 0x8bbeb8ea, 0xfcb9887c, 0x62dd1ddf, 0x15da2d49, 0x8cd37cf3, 0xfbd44c65],
    [0x4db26158, 0x3ab551ce, 0xa3bc0074, 0xd4bb30e2, 0x4adfa541, 0x3dd895d7, 0xa4d1c46d, 0xd3d6f4fb],
    [0x4369e96a, 0x346ed9fc, 0xad678846, 0xda60b8d0, 0x44042d73, 0x33031de5, 0xaa0a4c5f, 0xdd0d7cc9],
    [0x5005713c, 0x270241aa, 0xbe0b1010, 0xc90c2086, 0x5768b525, 0x206f85b3, 0xb966d409, 0xce61e49f],
    [0x5edef90e, 0x29d9c998, 0xb0d09822, 0xc7d7a8b4, 0x59b33d17, 0x2eb40d81, 0xb7bd5c3b, 0xc0ba6cad],
    [0xedb88320, 0x9abfb3b6, 0x03b6e20c, 0x74b1d29a, 0xead54739, 0x9dd277af, 0x04db2615, 0x73dc1683],
    [0xe3630b12, 0x94643b84, 0x0d6d6a3e, 0x7a6a5aa8, 0xe40ecf0b, 0x9309ff9d, 0x0a00ae27, 0x7d079eb1],
    [0xf00f9344, 0x8708a3d2, 0x1e01f268, 0x6906c2fe, 0xf762575d, 0x806567cb, 0x196c3671, 0x6e6b06e7],
    [0xfed41b76, 0x89d32be0, 0x10da7a5a, 0x67dd4acc, 0xf9b9df6f, 0x8ebeeff9, 0x17b7be43, 0x60b08ed5],
    [0xd6d6a3e8, 0xa1d1937e, 0x38d8c2c4, 0x4fdff252, 0xd1bb67f1, 0xa6bc5767, 0x3fb506dd, 0x48b2364b],
    [0xd80d2bda, 0xaf0a1b4c, 0x36034af6, 0x41047a60, 0xdf60efc3, 0xa867df55, 0x316e8eef, 0x4669be79],
    [0xcb61b38c, 0xbc66831a, 0x256fd2a0, 0x5268e236, 0xcc0c7795, 0xbb0b4703, 0x220216b9, 0x5505262f],
    [0xc5ba3bbe, 0xb2bd0b28, 0x2bb45a92, 0x5cb36a04, 0xc2d7ffa7, 0xb5d0cf31, 0x2cd99e8b, 0x5bdeae1d],
    [0x9b64c2b0, 0xec63f226, 0x756aa39c, 0x026d930a, 0x9c0906a9, 0xeb0e363f, 0x72076785, 0x05005713],
    [0x95bf4a82, 0xe2b87a14, 0x7bb12bae, 0x0cb61b38, 0x92d28e9b, 0xe5d5be0d, 0x7cdcefb7, 0x0bdbdf21],
    [0x86d3d2d4, 0xf1d4e242, 0x68ddb3f8, 0x1fda836e, 0x81be16cd, 0xf6b9265b, 0x6fb077e1, 0x18b74777],
    [0x88085ae6, 0xff0f6a70, 0x66063bca, 0x11010b5c, 0x8f659eff, 0xf862ae69, 0x616bffd3, 0x166ccf45],
    [0xa00ae278, 0xd70dd2ee, 0x4e048354, 0x3903b3c2, 0xa7672661, 0xd06016f7, 0x4969474d, 0x3e6e77db],
    [0xaed16a4a, 0xd9d65adc, 0x40df0b66, 0x37d83bf0, 0xa9bcae53, 0xdebb9ec5, 0x47b2cf7f, 0x30b5ffe9],
    [0xbdbdf21c, 0xcabac28a, 0x53b39330, 0x24b4a3a6, 0xbad03605, 0xcdd70693, 0x54de5729, 0x23d967bf],
    [0xb3667a2e, 0xc4614ab8, 0x5d681b02, 0x2a6f2b94, 0xb40bbe37, 0xc30c8ea1, 0x5a05df1b, 0x2d02ef8d]
  ]

  /** The number a byte is. */
  function Number(i: Word): nat {
    Weight(i & 1, 1) + Weight(i & 2, 2) + Weight(i & 4, 4) + Weight(i & 8, 8) + Weight(i & 16, 16)
  }

  function Weight(bit: Word, weight: nat): (r: nat)
    ensures r <= weight
  {
    if bit != 0 then weight else 0
  }

  /** `crc32tab[i]`. */
  function Entry(i: Byte): Word {
    RowLengths();
    NumberBounds(i);
    CRC32TAB[Number(i >> 3)][Number(i & 7)]
  }

  lemma RowLengths()
    ensures |CRC32TAB| == 32 && forall r :: 0 <= r < 32 ==> |CRC32TAB[r]| == 8
  {
  }

  lemma NumberBounds(i: Byte)
    ensures Number(i >> 3) < 32 && Number(i & 7) < 8
  {
    assert (i & 7) & 8 == 0 && (i & 7) & 16 == 0;
  }

  /** Eight entries from `first` on are what the bitwise algorithm makes of their indices. */
  ghost predicate IsRow(first: Word, row: seq<Word>) {
    && |row| == 8
    && row[0] == Bits8(first) && row[1] == Bits8(first + 1) && row[2] == Bits8(first + 2) && row[3] == Bits8(first + 3)
    && row[4] == Bits8(first + 4) && row[5] == Bits8(first + 5) && row[6] == Bits8(first + 6) && row[7] == Bits8(first + 7)
  }

  lemma Row00() ensures IsRow(0x00, CRC32TAB[0]) {}
  lemma Row01() ensures IsRow(0x08, CRC32TAB[1]) {}
  lemma Row02() ensures IsRow(0x10, CRC32TAB[2]) {}
  lemma Row03() ensures IsRow(0x18, CRC32TAB[3]) {}
  lemma Row04() ensures IsRow(0x20, CRC32TAB[4]) {}
  lemma Row05() ensures IsRow(0x28, CRC32TAB[5]) {}
  lemma Row06() ensures IsRow(0x30, CRC32TAB[6]) {}
  lemma Row07() ensures IsRow(0x38, CRC32TAB[7]) {}
  lemma Row08() ensures IsRow(0x40, CRC32TAB[8]) {}
  lemma Row09() ensures IsRow(0x48, CRC32TAB[9]) {}
  lemma Row10() ensures IsRow(0x50, CRC32TAB[10]) {}
  lemma Row11() ensures IsRow(0x58, CRC32TAB[11]) {}
  lemma Row12() ensures IsRow(0x60, CRC32TAB[12]) {}
  lemma Row13() ensures IsRow(0x68, CRC32TAB[13]) {}
  lemma Row14() ensures IsRow(0x70, CRC32TAB[14]) {}
  lemma Row15() ensures IsRow(0x78, CRC32TAB[15]) {}
  lemma Row16() ensures IsRow(0x80, CRC32TAB[16]) {}
  lemma Row17() ensures IsRow(0x88, CRC32TAB[17]) {}
  lemma Row18() ensures IsRow(0x90, CRC32TAB[18]) {}
  lemma Row19() ensures IsRow(0x98, CRC32TAB[19]) {}
  lemma Row20() ensures IsRow(0xa0, CRC32TAB[20]) {}
  lemma Row21() ensures IsRow(0xa8, CRC32TAB[21]) {}
  lemma Row22() ensures IsRow(0xb0, CRC32TAB[22]) {}
  lemma Row23() ensures IsRow(0xb8, CRC32TAB[23]) {}
  lemma Row24() ensures IsRow(0xc0, CRC32TAB[24]) {}
  lemma Row25() ensures IsRow(0xc8, CRC32TAB[25]) {}
  lemma Row26() ensures IsRow(0xd0, CRC32TAB[26]) {}
  lemma Row27() ensures IsRow(0xd8, CRC32TAB[27]) {}
  lemma Row28() ensures IsRow(0xe0, CRC32TAB[28]) {}
  lemma Row29() ensures IsRow(0xe8, CRC32TAB[29]) {}
  lemma Row30() ensures IsRow(0xf0, CRC32TAB[30]) {}
  lemma Row31() ensures IsRow(0xf8, CRC32TAB[31]) {}

  lemma InRow(i: Byte, first: Word)
    requires i >> 3 == first >> 3 && first & 7 == 0
    ensures || (i & 7 == 0 && i == first) || (i & 7 == 1 && i == first + 1) || (i & 7 == 2 && i == first + 2)
            || (i & 7 == 3 && i == first + 3) || (i & 7 == 4 && i == first + 4) || (i & 7 == 5 && i == first + 5)
            || (i & 7 == 6 && i == first + 6) || (i & 7 == 7 && i == first + 7)
  {
  }

  lemma RowIsBitwise(i: Byte, first: Word, r: nat)
    requires i >> 3 == first >> 3 && first & 7 == 0 && r < |CRC32TAB| && r == Number(i >> 3) && IsRow(first, CRC32TAB[r])
    ensures Entry(i) == Bits8(i)
  {
    hide Bits8, Number;
    InRow(i, first);
    RowNumbers();
  }

  /** The table holds what eight bit steps make of each index. */
  lemma EntryIsBitwise(i: Byte)
    ensures Entry(i) == Bits8(i)
  {
    hide Bits8, Entry, IsRow, Number;
    RowLengths();
    RowNumbers();
    var k := i >> 3;
    if k == 0 { Row00(); RowIsBitwise(i, 0x00, 0); }
    else if k == 1 { Row01(); RowIsBitwise(i, 0x08, 1); }
    else if k == 2 { Row02(); RowIsBitwise(i, 0x10, 2); }
    else if k == 3 { Row03(); RowIsBitwise(i, 0x18, 3); }
    else if k == 4 { Row04(); RowIsBitwise(i, 0x20, 4); }
    else if k == 5 { Row05(); RowIsBitwise(i, 0x28, 5); }
    else if k == 6 { Row06(); RowIsBitwise(i, 0x30, 6); }
    else if k == 7 { Row07(); RowIsBitwise(i, 0x38, 7); }
    else if k == 8 { Row08(); RowIsBitwise(i, 0x40, 8); }
    else if k == 9 { Row09(); RowIsBitwise(i, 0x48, 9); }
    else if k == 10 { Row10(); RowIsBitwise(i, 0x50, 10); }
    else if k == 11 { Row11(); RowIsBitwise(i, 0x58, 11); }
    else if k == 12 { Row12(); RowIsBitwise(i, 0x60, 12); }
    else if k == 13 { Row13(); RowIsBitwise(i, 0x68, 13); }
    else if k == 14 { Row14(); RowIsBitwise(i, 0x70, 14); }
    else if k == 15 { Row15(); RowIsBitwise(i, 0x78, 15); }
    else if k == 16 { Row16(); RowIsBitwise(i, 0x80, 16); }
    else if k == 17 { Row17(); RowIsBitwise(i, 0x88, 17); }
    else if k == 18 { Row18(); RowIsBitwise(i, 0x90, 18); }
    else if k == 19 { Row19(); RowIsBitwise(i, 0x98, 19); }
    else if k == 20 { Row20(); RowIsBitwise(i, 0xa0, 20); }
    else if k == 21 { Row21(); RowIsBitwise(i, 0xa8, 21); }
    else if k == 22 { Row22(); RowIsBitwise(i, 0xb0, 22); }
    else if k == 23 { Row23(); RowIsBitwise(i, 0xb8, 23); }
    else if k == 24 { Row24(); RowIsBitwise(i, 0xc0, 24); }
    else if k == 25 { Row25(); RowIsBitwise(i, 0xc8, 25); }
    else if k == 26 { Row26(); RowIsBitwise(i, 0xd0, 26); }
    else if k == 27 { Row27(); RowIsBitwise(i, 0xd8, 27); }
    else if k == 28 { Row28(); RowIsBitwise(i, 0xe0, 28); }
    else if k == 29 { Row29(); RowIsBitwise(i, 0xe8, 29); }
    else if k == 30 { Row30(); RowIsBitwise(i, 0xf0, 30); }
    else if k == 31 { Row31(); RowIsBitwise(i, 0xf8, 31); }
  }

  lemma RowNumbers()
    ensures Number(0) == 0 && Number(1) == 1 && Number(2) == 2 && Number(3) == 3
    ensures Number(4) == 4 && Number(5) == 5 && Number(6) == 6 && Number(7) == 7
    ensures Number(8) == 8 && Number(9) == 9 && Number(10) == 10 && Number(11) == 11
    ensures Number(12) == 12 && Number(13) == 13 && Number(14) == 14 && Number(15) == 15
    ensures Number(16) == 16 && Number(17) == 17 && Number(18) == 18 && Number(19) == 19
    ensures Number(20) == 20 && Number(21) == 21 && Number(22) == 22 && Number(23) == 23
    ensures Number(24) == 24 && Number(25) == 25 && Number(26) == 26 && Number(27) == 27
    ensures Number(28) == 28 && Number(29) == 29 && Number(30) == 30 && Number(31) == 31
  {
  }
}
