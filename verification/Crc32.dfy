/**
CRC-32 (section 8 of RFC 1952).  The table-driven loop is the bit-at-a-time division by the reflected polynomial,
buffers may be fed in pieces, and no change within four consecutive bytes goes unnoticed (`FourBytesNoticed`).
*/
module Crc32 {

  type Byte = bv8

  /** The generator polynomial, lowest power in the highest bit. */
  const POLYNOMIAL: bv32 := 0xEDB8_8320

  const ONES: bv32 := 0xFFFF_FFFF

  // ---------- going through a buffer ----------

  function Fold<T>(step: (T, Byte) -> T, c: T, buf: seq<Byte>): T
    decreases |buf|
  {
    if buf == [] then c else Fold(step, step(c, buf[0]), buf[1..])
  }

  lemma {:induction false} FoldConcat<T>(step: (T, Byte) -> T, c: T, a: seq<Byte>, b: seq<Byte>)
    ensures Fold(step, c, a + b) == Fold(step, Fold(step, c, a), b)
    decreases |a|
  {
    if a == [] {
      assert a + b == b;
    } else {
      assert (a + b)[1..] == a[1..] + b;
      FoldConcat(step, step(c, a[0]), a[1..], b);
    }
  }

  lemma FoldOne<T>(step: (T, Byte) -> T, c: T, b: Byte)
    ensures Fold(step, c, [b]) == step(c, b)
  {
    assert [b][1..] == [];
  }

  ghost predicate StepInjective<T(!new)>(step: (T, Byte) -> T) {
    forall c, d, b :: step(c, b) == step(d, b) ==> c == d
  }

  lemma SameStep<T(!new)>(step: (T, Byte) -> T, c: T, d: T, b: Byte)
    requires StepInjective(step) && step(c, b) == step(d, b)
    ensures c == d
  {
  }

  /** Registers once different stay different, whatever is fed to both. */
  lemma {:induction false} FoldInjective<T(!new)>(step: (T, Byte) -> T, c: T, d: T, buf: seq<Byte>)
    requires StepInjective(step) && Fold(step, c, buf) == Fold(step, d, buf)
    ensures c == d
    decreases |buf|
  {
    if buf == [] {
    } else {
      var b := buf[0];
      FoldInjective(step, step(c, b), step(d, b), buf[1..]);
      SameStep(step, c, d, b);
    }
  }

  function Iterate<T>(f: T -> T, c: T, n: nat): T
    decreases n
  {
    if n == 0 then c else Iterate(f, f(c), n - 1)
  }

  ghost predicate Linear<T(!new)>(f: T -> T, add: (T, T) -> T) {
    forall x, y :: f(add(x, y)) == add(f(x), f(y))
  }

  lemma {:induction false} IterateLinear<T(!new)>(f: T -> T, add: (T, T) -> T, x: T, y: T, n: nat)
    requires Linear(f, add)
    ensures Iterate(f, add(x, y), n) == add(Iterate(f, x, n), Iterate(f, y, n))
    decreases n
  {
    if n == 0 {
    } else {
      IterateLinear(f, add, f(x), f(y), n - 1);
    }
  }

  ghost predicate Undoes<T(!new)>(g: T -> T, f: T -> T) {
    forall x :: g(f(x)) == x
  }

  lemma {:induction false} IterateInjective<T(!new)>(f: T -> T, g: T -> T, x: T, y: T, n: nat)
    requires Undoes(g, f) && Iterate(f, x, n) == Iterate(f, y, n)
    ensures x == y
    decreases n
  {
    if n == 0 {
    } else {
      IterateInjective(f, g, f(x), f(y), n - 1);
    }
  }

  /** Bits 0 to n - 1 of b are added in and shifted one after the other. */
  function FeedBits<T>(shift: T -> T, add: (T, T) -> T, low: T -> T, half: T -> T, c: T, b: T, n: nat): T
    decreases n
  {
    if n == 0 then c else FeedBits(shift, add, low, half, shift(add(c, low(b))), half(b), n - 1)
  }

  /** One bit first, and the rest can still be added in after the shift. */
  ghost predicate PassesRest<T(!new)>(shift: T -> T, add: (T, T) -> T, low: T -> T, half: T -> T) {
    forall c, b :: shift(add(c, b)) == add(shift(add(c, low(b))), half(b))
  }

  /** Feeding bits one by one is adding them in at once and shifting. */
  lemma {:induction false} FeedBitsShift<T(!new)>(
      shift: T -> T, add: (T, T) -> T, low: T -> T, half: T -> T, zero: T, c: T, b: T, n: nat)
    requires PassesRest(shift, add, low, half) && Iterate(half, b, n) == zero && forall x :: add(x, zero) == x
    ensures FeedBits(shift, add, low, half, c, b, n) == Iterate(shift, add(c, b), n)
    decreases n
  {
    if n == 0 {
    } else {
      FeedBitsShift(shift, add, low, half, zero, shift(add(c, low(b))), half(b), n - 1);
    }
  }

  lemma IterateEight<T>(f: T -> T, c: T)
    ensures Iterate(f, c, 8) == f(f(f(f(f(f(f(f(c))))))))
  {
    IterateFour(f, c, 4);
    IterateFour(f, f(f(f(f(c)))), 0);
  }

  lemma IterateFour<T>(f: T -> T, c: T, n: nat)
    ensures Iterate(f, c, n + 4) == Iterate(f, f(f(f(f(c)))), n)
  {
    assert Iterate(f, c, n + 4) == Iterate(f, f(c), n + 3);
    assert Iterate(f, f(c), n + 3) == Iterate(f, f(f(c)), n + 2);
    assert Iterate(f, f(f(c)), n + 2) == Iterate(f, f(f(f(c))), n + 1);
  }

  // ---------- one bit at a time ----------

  /** Divide by x: the bit shifted out says whether to subtract the polynomial. */
  function ShiftBit(c: bv32): bv32 {
    if c & 1 == 1 then (c >> 1) ^ POLYNOMIAL else c >> 1
  }

  function Xor(x: bv32, y: bv32): bv32 {
    x ^ y
  }

  function LowBit(b: bv32): bv32 {
    b & 1
  }

  function Half(b: bv32): bv32 {
    b >> 1
  }

  /** The eight bits of b go in, bit 0 first. */
  function FeedByte(c: bv32, b: Byte): bv32 {
    FeedBits(ShiftBit, Xor, LowBit, Half, c, b as bv32, 8)
  }

  /** The reference: every bit of every byte, in order. */
  function Feed(c: bv32, buf: seq<Byte>): bv32 {
    Fold(FeedByte, c, buf)
  }

  function Complement(c: bv32): bv32 {
    c ^ ONES
  }

  function Crc(crc: bv32, buf: seq<Byte>): bv32 {
    Complement(Feed(Complement(crc), buf))
  }

  // ---------- one byte at a time ----------

  function Shift8(c: bv32): bv32 {
    ShiftBit(ShiftBit(ShiftBit(ShiftBit(ShiftBit(ShiftBit(ShiftBit(ShiftBit(c))))))))
  }

  /** Eight consecutive entries of the table. */
  datatype Row = Row(e0: bv32, e1: bv32, e2: bv32, e3: bv32, e4: bv32, e5: bv32, e6: bv32, e7: bv32)

  function Entry(row: Row, k: bv8): bv32 {
    match k
    case 0 => row.e0
    case 1 => row.e1
    case 2 => row.e2
    case 3 => row.e3
    case 4 => row.e4
    case 5 => row.e5
    case 6 => row.e6
    case _ => row.e7
  }

  /** Entries 0 to 127. */
  function LowerRow(r: bv8): Row {
    match r
    case 0 => Row(0x00000000, 0x77073096, 0xEE0E612C, 0x990951BA, 0x076DC419, 0x706AF48F, 0xE963A535, 0x9E6495A3)
    case 1 => Row(0x0EDB8832, 0x79DCB8A4, 0xE0D5E91E, 0x97D2D988, 0x09B64C2B, 0x7EB17CBD, 0xE7B82D07, 0x90BF1D91)
    case 2 => Row(0x1DB71064, 0x6AB020F2, 0xF3B97148, 0x84BE41DE, 0x1ADAD47D, 0x6DDDE4EB, 0xF4D4B551, 0x83D385C7)
    case 3 => Row(0x136C9856, 0x646BA8C0, 0xFD62F97A, 0x8A65C9EC, 0x14015C4F, 0x63066CD9, 0xFA0F3D63, 0x8D080DF5)
    case 4 => Row(0x3B6E20C8, 0x4C69105E, 0xD56041E4, 0xA2677172, 0x3C03E4D1, 0x4B04D447, 0xD20D85FD, 0xA50AB56B)
    case 5 => Row(0x35B5A8FA, 0x42B2986C, 0xDBBBC9D6, 0xACBCF940, 0x32D86CE3, 0x45DF5C75, 0xDCD60DCF, 0xABD13D59)
    case 6 => Row(0x26D930AC, 0x51DE003A, 0xC8D75180, 0xBFD06116, 0x21B4F4B5, 0x56B3C423, 0xCFBA9599, 0xB8BDA50F)
    case 7 => Row(0x2802B89E, 0x5F058808, 0xC60CD9B2, 0xB10BE924, 0x2F6F7C87, 0x58684C11, 0xC1611DAB, 0xB6662D3D)
    case 8 => Row(0x76DC4190, 0x01DB7106, 0x98D220BC, 0xEFD5102A, 0x71B18589, 0x06B6B51F, 0x9FBFE4A5, 0xE8B8D433)
    case 9 => Row(0x7807C9A2, 0x0F00F934, 0x9609A88E, 0xE10E9818, 0x7F6A0DBB, 0x086D3D2D, 0x91646C97, 0xE6635C01)
    case 10 => Row(0x6B6B51F4, 0x1C6C6162, 0x856530D8, 0xF262004E, 0x6C0695ED, 0x1B01A57B, 0x8208F4C1, 0xF50FC457)
    case 11 => Row(0x65B0D9C6, 0x12B7E950, 0x8BBEB8EA, 0xFCB9887C, 0x62DD1DDF, 0x15DA2D49, 0x8CD37CF3, 0xFBD44C65)
    case 12 => Row(0x4DB26158, 0x3AB551CE, 0xA3BC0074, 0xD4BB30E2, 0x4ADFA541, 0x3DD895D7, 0xA4D1C46D, 0xD3D6F4FB)
    case 13 => Row(0x4369E96A, 0x346ED9FC, 0xAD678846, 0xDA60B8D0, 0x44042D73, 0x33031DE5, 0xAA0A4C5F, 0xDD0D7CC9)
    case 14 => Row(0x5005713C, 0x270241AA, 0xBE0B1010, 0xC90C2086, 0x5768B525, 0x206F85B3, 0xB966D409, 0xCE61E49F)
    case _ => Row(0x5EDEF90E, 0x29D9C998, 0xB0D09822, 0xC7D7A8B4, 0x59B33D17, 0x2EB40D81, 0xB7BD5C3B, 0xC0BA6CAD)
  }

  /** Entries 128 to 255. */
  function UpperRow(r: bv8): Row {
    match r
    case 0 => Row(0xEDB88320, 0x9ABFB3B6, 0x03B6E20C, 0x74B1D29A, 0xEAD54739, 0x9DD277AF, 0x04DB2615, 0x73DC1683)
    case 1 => Row(0xE3630B12, 0x94643B84, 0x0D6D6A3E, 0x7A6A5AA8, 0xE40ECF0B, 0x9309FF9D, 0x0A00AE27, 0x7D079EB1)
    case 2 => Row(0xF00F9344, 0x8708A3D2, 0x1E01F268, 0x6906C2FE, 0xF762575D, 0x806567CB, 0x196C3671, 0x6E6B06E7)
    case 3 => Row(0xFED41B76, 0x89D32BE0, 0x10DA7A5A, 0x67DD4ACC, 0xF9B9DF6F, 0x8EBEEFF9, 0x17B7BE43, 0x60B08ED5)
    case 4 => Row(0xD6D6A3E8, 0xA1D1937E, 0x38D8C2C4, 0x4FDFF252, 0xD1BB67F1, 0xA6BC5767, 0x3FB506DD, 0x48B2364B)
    case 5 => Row(0xD80D2BDA, 0xAF0A1B4C, 0x36034AF6, 0x41047A60, 0xDF60EFC3, 0xA867DF55, 0x316E8EEF, 0x4669BE79)
    case 6 => Row(0xCB61B38C, 0xBC66831A, 0x256FD2A0, 0x5268E236, 0xCC0C7795, 0xBB0B4703, 0x220216B9, 0x5505262F)
    case 7 => Row(0xC5BA3BBE, 0xB2BD0B28, 0x2BB45A92, 0x5CB36A04, 0xC2D7FFA7, 0xB5D0CF31, 0x2CD99E8B, 0x5BDEAE1D)
    case 8 => Row(0x9B64C2B0, 0xEC63F226, 0x756AA39C, 0x026D930A, 0x9C0906A9, 0xEB0E363F, 0x72076785, 0x05005713)
    case 9 => Row(0x95BF4A82, 0xE2B87A14, 0x7BB12BAE, 0x0CB61B38, 0x92D28E9B, 0xE5D5BE0D, 0x7CDCEFB7, 0x0BDBDF21)
    case 10 => Row(0x86D3D2D4, 0xF1D4E242, 0x68DDB3F8, 0x1FDA836E, 0x81BE16CD, 0xF6B9265B, 0x6FB077E1, 0x18B74777)
    case 11 => Row(0x88085AE6, 0xFF0F6A70, 0x66063BCA, 0x11010B5C, 0x8F659EFF, 0xF862AE69, 0x616BFFD3, 0x166CCF45)
    case 12 => Row(0xA00AE278, 0xD70DD2EE, 0x4E048354, 0x3903B3C2, 0xA7672661, 0xD06016F7, 0x4969474D, 0x3E6E77DB)
    case 13 => Row(0xAED16A4A, 0xD9D65ADC, 0x40DF0B66, 0x37D83BF0, 0xA9BCAE53, 0xDEBB9EC5, 0x47B2CF7F, 0x30B5FFE9)
    case 14 => Row(0xBDBDF21C, 0xCABAC28A, 0x53B39330, 0x24B4A3A6, 0xBAD03605, 0xCDD70693, 0x54DE5729, 0x23D967BF)
    case _ => Row(0xB3667A2E, 0xC4614AB8, 0x5D681B02, 0x2A6F2B94, 0xB40BBE37, 0xC30C8EA1, 0x5A05DF1B, 0x2D02EF8D)
  }

  function TableRow(r: bv8): Row {
    if r < 16 then LowerRow(r) else UpperRow(r - 16)
  }

  function Table(i: bv8): bv32 {
    Entry(TableRow(i >> 3), i & 7)
  }

  /** The table entry for the low byte of the register. */
  method LookUp(x: bv32) returns (entry: bv32)
    ensures entry == Iterate(ShiftBit, x & 0xFF, 8)
  {
    entry := Table((x & 0xFF) as bv8);
    TableDivides((x & 0xFF) as bv8);
    SplitLow(x);
  }

  /** The rest of the register, whatever byte is added in. */
  method ShiftRest(c: bv32, ghost b: Byte) returns (rest: bv32)
    ensures rest == Iterate(ShiftBit, (c ^ (b as bv32)) & 0xFFFF_FF00, 8)
  {
    rest := c >> 8;
    HighShifts(c, b);
  }

  /** The update for one byte: the table-driven step is the bit-at-a-time one. */
  method UpdateByte(c: bv32, b: Byte) returns (r: bv32)
    ensures r == FeedByte(c, b)
  {
    var x := c ^ (b as bv32);
    var entry := LookUp(x);
    var rest := ShiftRest(c, b);
    r := Xor(rest, entry);
    SplitLow(x);
    ShiftedWhole(x, x & 0xFFFF_FF00, x & 0xFF, rest, entry);
    FeedByteShifts(c, b);
  }

  /** Computes or accumulates the CRC of a buffer. */
  method ComputeBuf(inCrc32: bv32, buf: seq<Byte>) returns (crc32: bv32)
    ensures crc32 == Crc(inCrc32, buf)
  {
    var start := Complement(inCrc32);
    crc32 := start;
    var i := 0;
    while i < |buf|
      invariant 0 <= i <= |buf|
      invariant crc32 == Feed(start, buf[..i])
    {
      crc32 := UpdateByte(crc32, buf[i]);
      FeedNext(start, buf, i);
      i := i + 1;
    }
    assert buf[..i] == buf;
    crc32 := Complement(crc32);
  }

  lemma FeedNext(c: bv32, buf: seq<Byte>, i: nat)
    requires i < |buf|
    ensures Feed(c, buf[..i + 1]) == FeedByte(Feed(c, buf[..i]), buf[i])
  {
    assert buf[..i + 1] == buf[..i] + [buf[i]];
    FoldConcat(FeedByte, c, buf[..i], [buf[i]]);
    FoldOne(FeedByte, Feed(c, buf[..i]), buf[i]);
  }

  // ---------- the division is linear ----------

  lemma XorShift(x: bv32, y: bv32)
    ensures (x ^ y) >> 1 == (x >> 1) ^ (y >> 1) && (x ^ y) & 1 == (x & 1) ^ (y & 1)
  {
  }

  lemma ZeroOrOne(x: bv32)
    ensures x & 1 == 0 || x & 1 == 1
  {
  }

  lemma XorRegroup(a: bv32, b: bv32, p: bv32)
    ensures (a ^ p) ^ b == (a ^ b) ^ p && a ^ (b ^ p) == (a ^ b) ^ p && (a ^ p) ^ (b ^ p) == a ^ b
  {
  }

  lemma ShiftBitLinear(x: bv32, y: bv32)
    ensures ShiftBit(x ^ y) == ShiftBit(x) ^ ShiftBit(y)
  {
    XorShift(x, y);
    ZeroOrOne(x);
    ZeroOrOne(y);
    XorRegroup(x >> 1, y >> 1, POLYNOMIAL);
  }

  lemma ShiftLinear()
    ensures Linear(ShiftBit, Xor)
  {
    forall x, y ensures ShiftBit(Xor(x, y)) == Xor(ShiftBit(x), ShiftBit(y)) {
      ShiftBitLinear(x, y);
    }
  }

  /** Shifting out eight zeros subtracts nothing. */
  lemma Shift8Zeros(c: bv32)
    requires c & 0xFF == 0
    ensures Shift8(c) == c >> 8
  {
  }

  lemma ShiftOutZeros(c: bv32)
    requires c & 0xFF == 0
    ensures Iterate(ShiftBit, c, 8) == c >> 8
  {
    Shift8Zeros(c);
    IterateEight(ShiftBit, c);
  }

  // ---------- the table is right ----------

  function ShiftRow(r: bv8): Row {
    var i := (r as bv32) << 3;
    Row(Shift8(i), Shift8(i + 1), Shift8(i + 2), Shift8(i + 3),
        Shift8(i + 4), Shift8(i + 5), Shift8(i + 6), Shift8(i + 7))
  }

  lemma LowerRows(r: bv8)
    requires r < 16
    ensures LowerRow(r) == ShiftRow(r)
  {
    match r {
      case 0 =>
      case 1 =>
      case 2 =>
      case 3 =>
      case 4 =>
      case 5 =>
      case 6 =>
      case 7 =>
      case 8 =>
      case 9 =>
      case 10 =>
      case 11 =>
      case 12 =>
      case 13 =>
      case 14 =>
      case _ => assert r == 15;
    }
  }

  lemma UpperRows(r: bv8)
    requires r < 16
    ensures UpperRow(r) == ShiftRow(r + 16)
  {
    match r {
      case 0 =>
      case 1 =>
      case 2 =>
      case 3 =>
      case 4 =>
      case 5 =>
      case 6 =>
      case 7 =>
      case 8 =>
      case 9 =>
      case 10 =>
      case 11 =>
      case 12 =>
      case 13 =>
      case 14 =>
      case _ => assert r == 15;
    }
  }

  lemma RowRight(r: bv8)
    requires r < 32
    ensures TableRow(r) == ShiftRow(r)
  {
    if r < 16 {
      LowerRows(r);
    } else {
      UpperRows(r - 16);
      assert r - 16 + 16 == r;
    }
  }

  /** Every entry of the table is its index divided through, bit by bit. */
  lemma TableRight(i: bv8)
    ensures Table(i) == Shift8(i as bv32)
  {
    RowRight(i >> 3);
    var j := ((i >> 3) as bv32) << 3;
    match i & 7 {
      case 0 => assert i as bv32 == j;
      case 1 => assert i as bv32 == j + 1;
      case 2 => assert i as bv32 == j + 2;
      case 3 => assert i as bv32 == j + 3;
      case 4 => assert i as bv32 == j + 4;
      case 5 => assert i as bv32 == j + 5;
      case 6 => assert i as bv32 == j + 6;
      case _ => assert i & 7 == 7; assert i as bv32 == j + 7;
    }
  }

  lemma TableDivides(i: bv8)
    ensures Table(i) == Iterate(ShiftBit, i as bv32, 8)
  {
    TableRight(i);
    IterateEight(ShiftBit, i as bv32);
  }

  lemma SplitLow(x: bv32)
    ensures x == Xor(x & 0xFFFF_FF00, x & 0xFF) && (x & 0xFFFF_FF00) & 0xFF == 0
    ensures ((x & 0xFF) as bv8) as bv32 == x & 0xFF
  {
  }

  lemma HighUntouched(c: bv32, b: Byte)
    ensures ((c ^ (b as bv32)) & 0xFFFF_FF00) >> 8 == c >> 8
  {
  }

  /** What the two halves of a register shift to makes up what the whole shifts to. */
  lemma HalvesShift<T(!new)>(f: T -> T, add: (T, T) -> T, high: T, low: T, x: T, h: T, l: T)
    requires Linear(f, add) && add(high, low) == x && Iterate(f, high, 8) == h && Iterate(f, low, 8) == l
    ensures Iterate(f, x, 8) == add(h, l)
  {
    IterateLinear(f, add, high, low, 8);
  }

  lemma HighShifts(c: bv32, b: Byte)
    ensures Iterate(ShiftBit, (c ^ (b as bv32)) & 0xFFFF_FF00, 8) == c >> 8
  {
    var high := (c ^ (b as bv32)) & 0xFFFF_FF00;
    assert high & 0xFF == 0 by { SplitLow(c ^ (b as bv32)); }
    ShiftOutZeros(high);
    HighUntouched(c, b);
  }

  /** The entry for the low byte, added to the rest shifted out, is the whole register shifted. */
  lemma EntryCompletes(f: bv32 -> bv32, x: bv32, high: bv32, low: bv32, h: bv32, entry: bv32)
    requires Linear(f, Xor) && x == Xor(high, low) && Iterate(f, high, 8) == h && entry == Iterate(f, low, 8)
    ensures Xor(h, entry) == Iterate(f, x, 8)
  {
    HalvesShift(f, Xor, high, low, x, h, entry);
  }

  lemma ShiftedWhole(x: bv32, high: bv32, low: bv32, h: bv32, entry: bv32)
    requires x == Xor(high, low) && Iterate(ShiftBit, high, 8) == h && entry == Iterate(ShiftBit, low, 8)
    ensures Xor(h, entry) == Iterate(ShiftBit, x, 8)
  {
    ShiftLinear();
    EntryCompletes(ShiftBit, x, high, low, h, entry);
  }

  lemma SameLowBit(c: bv32, b: bv32)
    ensures (c ^ b) & 1 == (c ^ (b & 1)) & 1 && (c ^ b) >> 1 == ((c ^ (b & 1)) >> 1) ^ (b >> 1)
  {
  }

  lemma FeedOne(c: bv32, b: bv32)
    ensures ShiftBit(Xor(c, b)) == Xor(ShiftBit(Xor(c, LowBit(b))), Half(b))
  {
    SameLowBit(c, b);
    ZeroOrOne(c ^ b);
    XorRegroup((c ^ (b & 1)) >> 1, b >> 1, POLYNOMIAL);
  }

  lemma ShiftPassesRest()
    ensures PassesRest(ShiftBit, Xor, LowBit, Half)
  {
    forall c, b ensures ShiftBit(Xor(c, b)) == Xor(ShiftBit(Xor(c, LowBit(b))), Half(b)) {
      FeedOne(c, b);
    }
  }

  lemma ByteFits(b: Byte)
    ensures Iterate(Half, b as bv32, 8) == 0
  {
    IterateEight(Half, b as bv32);
  }

  lemma XorZero()
    ensures forall x :: Xor(x, 0) == x
  {
  }

  lemma FeedByteShifts(c: bv32, b: Byte)
    ensures FeedByte(c, b) == Iterate(ShiftBit, c ^ (b as bv32), 8)
  {
    ByteFits(b);
    ShiftPassesRest();
    XorZero();
    FeedBitsShift(ShiftBit, Xor, LowBit, Half, 0, c, b as bv32, 8);
  }

  // ---------- buffers in pieces ----------

  lemma XorTwice(x: bv32, k: bv32)
    ensures (x ^ k) ^ k == x
  {
  }

  lemma ComplementUndone()
    ensures Undoes(Complement, Complement)
  {
    forall c ensures Complement(Complement(c)) == c {
      XorTwice(c, ONES);
    }
  }

  lemma FoldMasked<T(!new)>(step: (T, Byte) -> T, mask: T -> T, c: T, a: seq<Byte>, b: seq<Byte>)
    requires Undoes(mask, mask)
    ensures mask(Fold(step, mask(mask(Fold(step, mask(c), a))), b)) == mask(Fold(step, mask(c), a + b))
  {
    FoldConcat(step, mask(c), a, b);
  }

  /** Feeding one piece's result into the next gives the CRC of the whole, however it is cut. */
  lemma Accumulates(crc: bv32, a: seq<Byte>, b: seq<Byte>)
    ensures Crc(Crc(crc, a), b) == Crc(crc, a + b)
  {
    ComplementUndone();
    FoldMasked(FeedByte, Complement, crc, a, b);
  }

  // ---------- errors are noticed ----------

  /** A shift can be undone. */
  function UnshiftBit(d: bv32): bv32 {
    if d & 0x8000_0000 != 0 then ((d ^ POLYNOMIAL) << 1) | 1 else d << 1
  }

  lemma UnshiftShift(c: bv32)
    ensures UnshiftBit(ShiftBit(c)) == c
  {
  }

  lemma ShiftUndone()
    ensures Undoes(UnshiftBit, ShiftBit)
  {
    forall c ensures UnshiftBit(ShiftBit(c)) == c {
      UnshiftShift(c);
    }
  }

  /** Equal after a byte each: the registers with the bytes added in were equal. */
  lemma FeedByteInjective(c: bv32, d: bv32, x: Byte, y: Byte)
    requires FeedByte(c, x) == FeedByte(d, y)
    ensures c ^ (x as bv32) == d ^ (y as bv32)
  {
    FeedByteShifts(c, x);
    FeedByteShifts(d, y);
    ShiftUndone();
    IterateInjective(ShiftBit, UnshiftBit, c ^ (x as bv32), d ^ (y as bv32), 8);
  }

  lemma XorCancel(k: bv32, a: bv32, b: bv32)
    requires a ^ k == b ^ k
    ensures a == b
  {
    XorTwice(a, k);
    XorTwice(b, k);
  }

  ghost predicate AddsByte(step: (bv32, Byte) -> bv32) {
    forall c, d, x, y :: step(c, x) == step(d, y) ==> c ^ (x as bv32) == d ^ (y as bv32)
  }

  lemma AddingInjective(step: (bv32, Byte) -> bv32)
    requires AddsByte(step)
    ensures StepInjective(step)
  {
    forall c, d, b | step(c, b) == step(d, b) ensures c == d {
      XorCancel(b as bv32, c, d);
    }
  }

  lemma FeedInjective()
    ensures StepInjective(FeedByte)
  {
    forall c, d, x, y | FeedByte(c, x) == FeedByte(d, y) ensures c ^ (x as bv32) == d ^ (y as bv32) {
      FeedByteInjective(c, d, x, y);
    }
    AddingInjective(FeedByte);
  }

  // ---------- errors within four bytes ----------

  /** Some bytes in one word, the first lowest. */
  function Packed<T>(join: (Byte, T) -> T, zero: T, buf: seq<Byte>): T
    decreases |buf|
  {
    if buf == [] then zero else join(buf[0], Packed(join, zero, buf[1..]))
  }

  /** Wherever the bytes are cut, what is packed behind the cut leaves room for a byte more. */
  predicate HasRoom<T>(join: (Byte, T) -> T, zero: T, short: T -> bool, buf: seq<Byte>)
    decreases |buf|
  {
    buf != [] ==> short(Packed(join, zero, buf[1..])) && HasRoom(join, zero, short, buf[1..])
  }

  ghost predicate Separable<T(!new)>(join: (Byte, T) -> T, short: T -> bool) {
    forall a, b, v, w :: short(v) && short(w) && join(a, v) == join(b, w) ==> a == b && v == w
  }

  lemma SameJoin<T(!new)>(join: (Byte, T) -> T, short: T -> bool, a: Byte, b: Byte, v: T, w: T)
    requires Separable(join, short) && short(v) && short(w) && join(a, v) == join(b, w)
    ensures a == b && v == w
  {
  }

  lemma {:induction false} PackedInjective<T(!new)>(
      join: (Byte, T) -> T, zero: T, short: T -> bool, x: seq<Byte>, y: seq<Byte>)
    requires Separable(join, short) && HasRoom(join, zero, short, x) && HasRoom(join, zero, short, y)
    requires |x| == |y| && Packed(join, zero, x) == Packed(join, zero, y)
    ensures x == y
    decreases |x|
  {
    if x == [] {
    } else {
      SameJoin(join, short, x[0], y[0], Packed(join, zero, x[1..]), Packed(join, zero, y[1..]));
      PackedInjective(join, zero, short, x[1..], y[1..]);
      assert x == [x[0]] + x[1..] && y == [y[0]] + y[1..];
    }
  }

  /** What comes later may be added in already before the first byte has been shifted out, if there is room. */
  ghost predicate AddsEarlier<T(!new)>(
      step: (T, Byte) -> T, shift: T -> T, add: (T, T) -> T, join: (Byte, T) -> T, short: T -> bool)
  {
    forall c, b, w :: short(w) ==> add(step(c, b), w) == Iterate(shift, add(c, join(b, w)), 8)
  }

  lemma AddedEarlier<T(!new)>(
      step: (T, Byte) -> T, shift: T -> T, add: (T, T) -> T, join: (Byte, T) -> T, short: T -> bool,
      c: T, b: Byte, w: T)
    requires AddsEarlier(step, shift, add, join, short) && short(w)
    ensures add(step(c, b), w) == Iterate(shift, add(c, join(b, w)), 8)
  {
  }

  lemma {:induction false} IterateAdd<T>(f: T -> T, c: T, m: nat, n: nat)
    ensures Iterate(f, Iterate(f, c, m), n) == Iterate(f, c, m + n)
    decreases m
  {
    if m == 0 {
    } else {
      IterateAdd(f, f(c), m - 1, n);
    }
  }

  /** All bytes can be added in at once before their bits are shifted through. */
  lemma {:induction false} FoldPacked<T(!new)>(
      step: (T, Byte) -> T, shift: T -> T, add: (T, T) -> T, join: (Byte, T) -> T, zero: T, short: T -> bool,
      c: T, buf: seq<Byte>)
    requires AddsEarlier(step, shift, add, join, short) && (forall x :: add(x, zero) == x)
    requires HasRoom(join, zero, short, buf)
    ensures Fold(step, c, buf) == Iterate(shift, add(c, Packed(join, zero, buf)), 8 * |buf|)
    decreases |buf|
  {
    if buf == [] {
    } else {
      FoldPacked(step, shift, add, join, zero, short, step(c, buf[0]), buf[1..]);
      AddedEarlier(step, shift, add, join, short, c, buf[0], Packed(join, zero, buf[1..]));
      IterateAdd(shift, add(c, Packed(join, zero, buf)), 8, 8 * (|buf| - 1));
    }
  }

  ghost predicate Cancels<T(!new)>(add: (T, T) -> T) {
    forall c, a, b :: add(c, a) == add(c, b) ==> a == b
  }

  lemma FoldDistinguishes<T(!new)>(
      step: (T, Byte) -> T, shift: T -> T, unshift: T -> T, add: (T, T) -> T, join: (Byte, T) -> T, zero: T,
      short: T -> bool, c: T, x: seq<Byte>, y: seq<Byte>)
    requires AddsEarlier(step, shift, add, join, short) && (forall z :: add(z, zero) == z)
    requires Undoes(unshift, shift) && Cancels(add) && Separable(join, short)
    requires HasRoom(join, zero, short, x) && HasRoom(join, zero, short, y)
    requires |x| == |y| && Fold(step, c, x) == Fold(step, c, y)
    ensures x == y
  {
    FoldPacked(step, shift, add, join, zero, short, c, x);
    FoldPacked(step, shift, add, join, zero, short, c, y);
    var a, b := Packed(join, zero, x), Packed(join, zero, y);
    IterateInjective(shift, unshift, add(c, a), add(c, b), 8 * |x|);
    PackedInjective(join, zero, short, x, y);
  }

  function Above(w: bv32): bv32 {
    w << 8
  }

  function Join(b: Byte, w: bv32): bv32 {
    Xor(b as bv32, Above(w))
  }

  predicate Short(w: bv32) {
    w <= 0xFF_FFFF
  }

  lemma JoinSeparable()
    ensures Separable(Join, Short)
  {
    forall a, b, v, w | Short(v) && Short(w) && Join(a, v) == Join(b, w) ensures a == b && v == w {
      SplitJoined(a, b, v, w);
    }
  }

  lemma SplitJoined(a: Byte, b: Byte, v: bv32, w: bv32)
    requires Join(a, v) == Join(b, w) && Short(v) && Short(w)
    ensures a == b && v == w
  {
  }

  lemma JoinLimits(b: Byte, w: bv32)
    ensures Join(b, 0) <= 0xFF
    ensures w <= 0xFF ==> Join(b, w) <= 0xFFFF
    ensures w <= 0xFFFF ==> Short(Join(b, w))
  {
  }

  /** Four bytes have room. */
  lemma FourHaveRoom(buf: seq<Byte>)
    requires |buf| <= 4
    ensures HasRoom(Join, 0, Short, buf)
  {
    if |buf| <= 1 {
    } else if |buf| == 2 {
      JoinLimits(buf[1], 0);
    } else if |buf| == 3 {
      JoinLimits(buf[2], 0);
      JoinLimits(buf[1], Join(buf[2], 0));
    } else {
      JoinLimits(buf[3], 0);
      JoinLimits(buf[2], Join(buf[3], 0));
      JoinLimits(buf[1], Join(buf[2], Join(buf[3], 0)));
    }
  }

  lemma AboveIsClear(w: bv32)
    requires Short(w)
    ensures Above(w) & 0xFF == 0 && Above(w) >> 8 == w
  {
  }

  lemma AboveShifts(w: bv32)
    requires Short(w)
    ensures Iterate(ShiftBit, Above(w), 8) == w
  {
    AboveIsClear(w);
    ShiftOutZeros(Above(w));
  }

  lemma XorAssociates(c: bv32, d: bv32, w: bv32)
    ensures Xor(Xor(c, d), w) == Xor(c, Xor(d, w))
  {
  }

  lemma ByteAddsEarlier(c: bv32, b: Byte, w: bv32)
    requires Short(w)
    ensures Xor(FeedByte(c, b), w) == Iterate(ShiftBit, Xor(c, Join(b, w)), 8)
  {
    AboveShifts(w);
    FeedByteShifts(c, b);
    XorAssociates(c, b as bv32, Above(w));
    ShiftedWhole(Xor(c, Join(b, w)), Xor(c, b as bv32), Above(w), FeedByte(c, b), w);
  }

  lemma BytesAddEarlier()
    ensures AddsEarlier(FeedByte, ShiftBit, Xor, Join, Short)
  {
    forall c, b, w | Short(w) ensures Xor(FeedByte(c, b), w) == Iterate(ShiftBit, Xor(c, Join(b, w)), 8) {
      ByteAddsEarlier(c, b, w);
    }
  }

  lemma XorCancels()
    ensures Cancels(Xor)
  {
    forall c, a, b | Xor(c, a) == Xor(c, b) ensures a == b {
      XorCancelLeft(c, a, b);
    }
  }

  lemma XorCancelLeft(c: bv32, a: bv32, b: bv32)
    requires c ^ a == c ^ b
    ensures a == b
  {
  }

  /** Up to four bytes lead the same register to different ones unless they are the same bytes. */
  lemma FeedDistinguishes(c: bv32, x: seq<Byte>, y: seq<Byte>)
    requires |x| == |y| <= 4 && Feed(c, x) == Feed(c, y)
    ensures x == y
  {
    BytesAddEarlier();
    XorZero();
    ShiftUndone();
    XorCancels();
    JoinSeparable();
    FourHaveRoom(x);
    FourHaveRoom(y);
    FoldDistinguishes(FeedByte, ShiftBit, UnshiftBit, Xor, Join, 0, Short, c, x, y);
  }

  /** Any change within four consecutive bytes always changes the result. */
  lemma FourBytesNoticed(crc: bv32, pre: seq<Byte>, x: seq<Byte>, y: seq<Byte>, post: seq<Byte>)
    requires x != y && |x| == |y| <= 4
    ensures Crc(crc, pre + x + post) != Crc(crc, pre + y + post)
  {
    var start := Complement(crc);
    if Crc(crc, pre + x + post) == Crc(crc, pre + y + post) {
      XorCancel(ONES, Feed(start, pre + x + post), Feed(start, pre + y + post));
      FedInThree(start, pre, x, post);
      FedInThree(start, pre, y, post);
      var c := Feed(start, pre);
      FeedInjective();
      FoldInjective(FeedByte, Feed(c, x), Feed(c, y), post);
      FeedDistinguishes(c, x, y);
    }
  }

  lemma FedInThree(c: bv32, pre: seq<Byte>, x: seq<Byte>, post: seq<Byte>)
    ensures Feed(c, pre + x + post) == Feed(Feed(Feed(c, pre), x), post)
  {
    FoldConcat(FeedByte, c, pre + x, post);
    FoldConcat(FeedByte, c, pre, x);
  }

  /** In particular changing a single byte does. */
  lemma SingleByteNoticed(crc: bv32, pre: seq<Byte>, x: Byte, y: Byte, post: seq<Byte>)
    requires x != y
    ensures Crc(crc, pre + [x] + post) != Crc(crc, pre + [y] + post)
  {
    assert [x][0] != [y][0];
    FourBytesNoticed(crc, pre, [x], [y], post);
  }

  // ---------- the complements ----------

  /** Up to four bytes are fed in at once. */
  lemma FeedAtOnce(c: bv32, buf: seq<Byte>)
    requires |buf| <= 4
    ensures Feed(c, buf) == Iterate(ShiftBit, Xor(c, Packed(Join, 0, buf)), 8 * |buf|)
  {
    BytesAddEarlier();
    XorZero();
    FourHaveRoom(buf);
    FoldPacked(FeedByte, ShiftBit, Xor, Join, 0, Short, c, buf);
  }

  /** The bytes of a word, the lowest first. */
  function LowestFirst(w: bv32): seq<Byte> {
    [(w & 0xFF) as Byte, ((w >> 8) & 0xFF) as Byte, ((w >> 16) & 0xFF) as Byte, (w >> 24) as Byte]
  }

  lemma JoinedBytes(w: bv32)
    ensures Join((w & 0xFF) as Byte, Join(((w >> 8) & 0xFF) as Byte, Join(((w >> 16) & 0xFF) as Byte,
        Join((w >> 24) as Byte, 0)))) == w
  {
  }

  lemma PackedBytes(w: bv32)
    ensures Packed(Join, 0, LowestFirst(w)) == w
  {
    var b := LowestFirst(w);
    JoinedBytes(w);
    PackedFour(Join, 0, b[0], b[1], b[2], b[3]);
  }

  lemma PackedFour<T>(join: (Byte, T) -> T, zero: T, a: Byte, b: Byte, c: Byte, d: Byte)
    ensures Packed(join, zero, [a, b, c, d]) == join(a, join(b, join(c, join(d, zero))))
  {
    assert [a] + [b, c, d] == [a, b, c, d] && [b] + [c, d] == [b, c, d] && [c] + [d] == [c, d] && [d] + [] == [d];
    PackedFirst(join, zero, a, [b, c, d]);
    PackedFirst(join, zero, b, [c, d]);
    PackedFirst(join, zero, c, [d]);
    PackedFirst(join, zero, d, []);
  }

  lemma PackedFirst<T>(join: (Byte, T) -> T, zero: T, b: Byte, rest: seq<Byte>)
    ensures Packed(join, zero, [b] + rest) == join(b, Packed(join, zero, rest))
  {
    assert ([b] + rest)[1..] == rest;
  }

  lemma WithComplement(c: bv32)
    ensures Xor(c, Complement(c)) == ONES
  {
  }

  lemma OnesShifted()
    ensures Iterate(ShiftBit, ONES, 32) == 0xDEBB_20E3
  {
    var (a, b, c) := (0x2DFD_1072, 0xBE26_ED00, 0x00BE_26ED);
    EightIs(ONES, a);
    EightIs(a, b);
    EightIs(b, c);
    EightIs(c, 0xDEBB_20E3);
    IterateAdd(ShiftBit, ONES, 8, 24);
    IterateAdd(ShiftBit, a, 8, 16);
    IterateAdd(ShiftBit, b, 8, 8);
  }

  lemma EightIs(c: bv32, d: bv32)
    requires Shift8(c) == d
    ensures Iterate(ShiftBit, c, 8) == d
  {
    IterateEight(ShiftBit, c);
  }

  /** A buffer followed by its own CRC, the lowest byte first, always has the same CRC. */
  lemma OwnCrcResidue(crc: bv32, m: seq<Byte>)
    ensures Crc(crc, m + LowestFirst(Crc(crc, m))) == 0x2144_DF1C
  {
    var start, w := Complement(crc), Crc(crc, m);
    var r := Feed(start, m);
    FoldConcat(FeedByte, start, m, LowestFirst(w));
    FeedAtOnce(r, LowestFirst(w));
    PackedBytes(w);
    WithComplement(r);
    OnesShifted();
    ResidueComplement();
  }

  lemma ResidueComplement()
    ensures Complement(0xDEBB_20E3) == 0x2144_DF1C
  {
  }

  // ---------- the check value ----------

  /** The digits from 1 to 9. */
  function Digits(): seq<Byte> {
    [0x31, 0x32, 0x33, 0x34, 0x35, 0x36, 0x37, 0x38, 0x39]
  }

  lemma CheckByte(c: bv32, b: Byte, d: bv32, k: nat)
    requires k < |Digits()| && Digits()[k] == b && Shift8(c ^ (b as bv32)) == d && Feed(ONES, Digits()[..k]) == c
    ensures Feed(ONES, Digits()[..k + 1]) == d
  {
    FeedNext(ONES, Digits(), k);
    FeedByteShifts(c, b);
    IterateEight(ShiftBit, c ^ (b as bv32));
  }

  /** The check value of the CRC. */
  lemma CheckValue()
    ensures Crc(0, Digits()) == 0xCBF4_3926
  {
    CheckByte(0xFFFF_FFFF, 0x31, 0x7C23_1048, 0);
    CheckByte(0x7C23_1048, 0x32, 0xB0AC_BB32, 1);
    CheckByte(0xB0AC_BB32, 0x33, 0x77B7_9C2D, 2);
    CheckByte(0x77B7_9C2D, 0x34, 0x641C_1F5C, 3);
    CheckByte(0x641C_1F5C, 0x35, 0x340A_C5E3, 4);
    CheckByte(0x340A_C5E3, 0x36, 0xF68D_2C9E, 5);
    CheckByte(0xF68D_2C9E, 0x37, 0xAFFC_9660, 6);
    CheckByte(0xAFFC_9660, 0x38, 0x651F_2550, 7);
    CheckByte(0x651F_2550, 0x39, 0x340B_C6D9, 8);
    assert Digits()[..9] == Digits();
    CheckComplements();
  }

  lemma CheckComplements()
    ensures Complement(0) == ONES && Complement(0x340B_C6D9) == 0xCBF4_3926
  {
  }
}
