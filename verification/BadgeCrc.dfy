/** The table-driven CRC-32 of the badge icon's PNG chunks (`buildBadgePng` in `index.ts`). */
module BadgeCrc {
  type Bytes = seq<bv8>

  const POLYNOMIAL: bv32 := 0xedb88320

  /** One bit of the register leaves on the right. */
  function Shift(c: bv32): bv32 { if c & 1 == 1 then POLYNOMIAL ^ (c >> 1) else c >> 1 }

  function Shifts(c: bv32, n: nat): bv32 { if n == 0 then c else Shift(Shifts(c, n - 1)) }

  function Shift8(c: bv32): bv32 { Shifts(c, 8) }

  function Xor(a: bv32, b: bv32): bv32 { a ^ b }

  function Wide(b: bv8): bv32 { b as bv32 }

  // The checksum of section 3.4 of RFC 2083, bit by bit

  /** One message bit enters the register. */
  function FeedBit(c: bv32, bit: bool): bv32 {
    if (c & 1 == 1) != bit then POLYNOMIAL ^ (c >> 1) else c >> 1
  }

  /** The low `n` bits of a byte enter, least significant first. */
  function FeedBits(c: bv32, byte: bv8, n: nat): bv32
    decreases n
  {
    if n == 0 then c else FeedBits(FeedBit(c, byte & 1 == 1), byte >> 1, n - 1)
  }

  function FeedBytes(c: bv32, s: Bytes): bv32
    decreases |s|
  {
    if s == [] then c else FeedBytes(FeedBits(c, s[0], 8), s[1..])
  }

  function Crc(s: Bytes): bv32 { Xor(FeedBytes(0xffffffff, s), 0xffffffff) }

  lemma FourBits(c: bv32, byte: bv8, n: nat)
    ensures var c1, byte1 := FeedBit(c, byte & 1 == 1), byte >> 1;
            var c2, byte2 := FeedBit(c1, byte1 & 1 == 1), byte1 >> 1;
            var c3, byte3 := FeedBit(c2, byte2 & 1 == 1), byte2 >> 1;
            FeedBits(c, byte, n + 4) == FeedBits(FeedBit(c3, byte3 & 1 == 1), byte3 >> 1, n)
  {
    hide FeedBit;
    var c1, byte1 := FeedBit(c, byte & 1 == 1), byte >> 1;
    assert FeedBits(c, byte, n + 4) == FeedBits(c1, byte1, n + 3);
    assert FeedBits(c1, byte1, n + 3) == FeedBits(FeedBit(c1, byte1 & 1 == 1), byte1 >> 1, n + 2);
  }

  /** The checksum of a PNG's last chunk, IEND, as every file carries it. */
  lemma KnownChecksum()
    ensures Crc([0x49, 0x45, 0x4e, 0x44]) == 0xae426082
  {
    FourBits(0xffffffff, 0x49, 4);
    FourBits(0x22fde946, 0x45, 4);
    FourBits(0x992bac53, 0x4e, 4);
    FourBits(0x639f4775, 0x44, 4);
  }

  // The register is linear

  lemma XorShifts(a: bv32, b: bv32)
    ensures (a ^ b) >> 1 == (a >> 1) ^ (b >> 1)
    ensures (a ^ b) & 1 == 1 <==> ((a & 1 == 1) != (b & 1 == 1))
  {
  }

  lemma XorLaws(p: bv32, x: bv32, y: bv32)
    ensures (p ^ x) ^ (p ^ y) == x ^ y && (p ^ x) ^ y == p ^ (x ^ y) && x ^ (p ^ y) == p ^ (x ^ y)
  {
  }

  lemma ShiftOfXor(a: bv32, b: bv32)
    ensures Shift(a ^ b) == Shift(a) ^ Shift(b)
  {
    XorShifts(a, b);
    XorLaws(POLYNOMIAL, a >> 1, b >> 1);
  }

  lemma ShiftIsLinear(a: bv32, b: bv32)
    ensures Shift(Xor(a, b)) == Xor(Shift(a), Shift(b))
  {
    hide Shift;
    ShiftOfXor(a, b);
  }

  lemma {:induction false} ShiftsAreLinear(a: bv32, b: bv32, n: nat)
    ensures Shifts(Xor(a, b), n) == Xor(Shifts(a, n), Shifts(b, n))
  {
    hide Shift, Xor;
    if n > 0 {
      ShiftsAreLinear(a, b, n - 1);
      ShiftIsLinear(Shifts(a, n - 1), Shifts(b, n - 1));
    }
  }

  lemma {:induction false} ShiftsAdd(c: bv32, n: nat)
    ensures Shifts(Shift(c), n) == Shifts(c, n + 1)
  {
    hide Shift;
    if n > 0 { ShiftsAdd(c, n - 1); }
  }

  // Bit by bit is byte by byte

  lemma FirstBitOfXor(c: bv32, byte: bv8)
    ensures Shift(c ^ Wide(byte)) == FeedBit(c, byte & 1 == 1) ^ Wide(byte >> 1)
  {
  }

  lemma FirstBit(c: bv32, byte: bv8)
    ensures Shift(Xor(c, Wide(byte))) == Xor(FeedBit(c, byte & 1 == 1), Wide(byte >> 1))
  {
    hide Shift, FeedBit, Wide;
    FirstBitOfXor(c, byte);
  }

  /** The byte has no bit beyond the low `n`. */
  predicate Fits(byte: bv8, n: nat)
    decreases n
  {
    if n == 0 then byte == 0 else Fits(byte >> 1, n - 1)
  }

  lemma EveryByteFits(byte: bv8)
    ensures Fits(byte, 8)
  {
  }

  lemma XorZero(c: bv32)
    ensures Xor(c, Wide(0)) == c && Xor(c, 0) == c
  {
  }

  /** Feeding the bits one by one or the whole byte at once is the same. */
  lemma {:induction false} FeedBitsIsShifts(c: bv32, byte: bv8, n: nat)
    requires Fits(byte, n)
    ensures FeedBits(c, byte, n) == Shifts(Xor(c, Wide(byte)), n)
    decreases n
  {
    hide Shift, FeedBit, Wide, Xor;
    if n == 0 {
      XorZero(c);
    } else {
      FirstBit(c, byte);
      FeedBitsIsShifts(FeedBit(c, byte & 1 == 1), byte >> 1, n - 1);
      ShiftsAdd(Xor(c, Wide(byte)), n - 1);
    }
  }

  lemma FeedByte(c: bv32, byte: bv8)
    ensures FeedBits(c, byte, 8) == Shift8(Xor(c, Wide(byte)))
  {
    EveryByteFits(byte);
    FeedBitsIsShifts(c, byte, 8);
  }

  // The table

  /** What `crcTable` holds. */
  predicate IsTable(t: seq<bv32>) {
    |t| == 256 && forall i | 0 <= i < 256 :: t[i] == Shift8(i as bv32)
  }

  function Low(c: bv32): bv32 { c & 0xff }

  function High(c: bv32): bv32 { c >> 8 }

  lemma TwoShifts(c: bv32)
    requires c & 3 == 0
    ensures Shifts(c, 2) == c >> 2
  {
    assert Shifts(c, 1) == c >> 1;
  }

  lemma FourShifts(c: bv32)
    requires c & 15 == 0
    ensures Shifts(c, 4) == c >> 4
  {
    TwoShifts(c);
    TwoShifts(c >> 2);
    ShiftsCompose(c, 2, 2);
  }

  lemma UpperBytesFall(c: bv32)
    requires Low(c) == 0
    ensures Shift8(c) == High(c)
  {
    FourShifts(c);
    FourShifts(c >> 4);
    ShiftsCompose(c, 4, 4);
  }

  lemma {:induction false} ShiftsCompose(c: bv32, m: nat, n: nat)
    ensures Shifts(c, m + n) == Shifts(Shifts(c, m), n)
  {
    hide Shift;
    if n > 0 { ShiftsCompose(c, m, n - 1); }
  }

  lemma SplitBytes(c: bv32)
    ensures c == Xor(Low(c), c & 0xffffff00) && Low(c & 0xffffff00) == 0 && High(c & 0xffffff00) == High(c)
  {
  }

  /** One table look-up does the work of eight single shifts. */
  lemma LookUp(c: bv32)
    ensures Xor(Shift8(Low(c)), High(c)) == Shift8(c)
  {
    hide Shift, Low, High, Xor;
    SplitBytes(c);
    ShiftsAreLinear(Low(c), c & 0xffffff00, 8);
    UpperBytesFall(c & 0xffffff00);
  }

  method MakeTable() returns (crcTable: array<bv32>)
    ensures fresh(crcTable) && IsTable(crcTable[..])
  {
    crcTable := new bv32[256];
    for i := 0 to 256
      invariant forall j | 0 <= j < i :: crcTable[j] == Shift8(j as bv32)
    {
      var c := i as bv32;
      for k := 0 to 8
        invariant c == Shifts(i as bv32, k)
      {
        c := if c & 1 == 1 then POLYNOMIAL ^ (c >> 1) else c >> 1;
      }
      crcTable[i] := c;
    }
  }

  lemma Index(c: bv32)
    ensures 0 <= Low(c) as int < 256 && (Low(c) as int) as bv32 == Low(c)
  {
  }

  lemma HighIgnoresByte(c: bv32, byte: bv8)
    ensures High(Xor(c, Wide(byte))) == High(c)
  {
  }

  /** The table-driven loop computes the bit-by-bit checksum. */
  method Crc32(crcTable: array<bv32>, buf: Bytes) returns (crc: bv32)
    requires IsTable(crcTable[..])
    ensures crc == Crc(buf)
  {
    hide Shift, Low, High, Xor, Wide, FeedBits, Shifts;
    var c: bv32 := 0xffffffff;
    for i := 0 to |buf|
      invariant FeedBytes(c, buf[i..]) == FeedBytes(0xffffffff, buf)
    {
      var mixed := Xor(c, Wide(buf[i]));
      Index(mixed);
      var entry := crcTable[..][Low(mixed) as int];
      LookUp(mixed);
      HighIgnoresByte(c, buf[i]);
      FeedByte(c, buf[i]);
      c := Xor(entry, High(c));
      assert buf[i..][0] == buf[i] && buf[i..][1..] == buf[i + 1..];
    }
    crc := Xor(c, 0xffffffff);
  }

  // What the checksum detects

  /** The register can be run backwards: the polynomial's top bit tells what left on the right. */
  function Unshift(c: bv32): bv32 {
    if c & 0x8000_0000 != 0 then ((c ^ POLYNOMIAL) << 1) | 1 else c << 1
  }

  lemma UnshiftUndoes(c: bv32)
    ensures Unshift(Shift(c)) == c
  {
  }

  lemma {:induction false} ShiftsAreInjective(a: bv32, b: bv32, n: nat)
    ensures Shifts(a, n) == Shifts(b, n) <==> a == b
  {
    hide Shift, Unshift;
    if n > 0 {
      ShiftsAreInjective(a, b, n - 1);
      UnshiftUndoes(Shifts(a, n - 1));
      UnshiftUndoes(Shifts(b, n - 1));
    }
  }

  lemma XorIsInjective(c: bv32, a: bv32, b: bv32)
    ensures Xor(c, a) == Xor(c, b) <==> a == b
    ensures Xor(a, c) == Xor(b, c) <==> a == b
  {
  }

  /** Different registers stay different whatever bytes follow. */
  lemma {:induction false} FeedKeepsApart(a: bv32, b: bv32, s: Bytes)
    ensures FeedBytes(a, s) == FeedBytes(b, s) <==> a == b
    decreases |s|
  {
    hide Shifts, Xor, Wide, FeedBits;
    if s != [] {
      FeedByte(a, s[0]);
      FeedByte(b, s[0]);
      XorIsInjective(Wide(s[0]), a, b);
      ShiftsAreInjective(Xor(a, Wide(s[0])), Xor(b, Wide(s[0])), 8);
      FeedKeepsApart(FeedBits(a, s[0], 8), FeedBits(b, s[0], 8), s[1..]);
    }
  }

  lemma {:induction false} FeedConcat(c: bv32, s: Bytes, t: Bytes)
    ensures FeedBytes(c, s + t) == FeedBytes(FeedBytes(c, s), t)
    decreases |s|
  {
    hide FeedBits;
    if s == [] {
      assert s + t == t;
    } else {
      assert (s + t)[0] == s[0] && (s + t)[1..] == s[1..] + t;
      FeedConcat(FeedBits(c, s[0], 8), s[1..], t);
    }
  }

  function Up(c: bv32): bv32 { c << 8 }

  function Or(a: bv32, b: bv32): bv32 { a | b }

  predicate Disjoint(a: bv32, b: bv32) { a & b == 0 }

  function Joined(byte: bv8, rest: bv32): bv32 { Or(Wide(byte), Up(rest)) }

  /** Up to four bytes as one little-endian word. */
  function Word(s: Bytes): bv32
    requires |s| <= 4
    decreases |s|
  {
    if s == [] then 0 else Joined(s[0], Word(s[1..]))
  }

  lemma {:induction false} WordFits(s: Bytes)
    requires |s| <= 4
    ensures |s| == 0 ==> Word(s) == 0
    ensures |s| <= 1 ==> Word(s) & 0xffffff00 == 0
    ensures |s| <= 2 ==> Word(s) & 0xffff0000 == 0
    ensures |s| <= 3 ==> Word(s) & 0xff000000 == 0
    decreases |s|
  {
    if s != [] { WordFits(s[1..]); }
  }

  lemma PrependByte(byte: bv8, rest: bv32)
    requires rest & 0xff000000 == 0
    ensures Low(Joined(byte, rest)) == Wide(byte) && High(Joined(byte, rest)) == rest
  {
  }

  /** Words are equal exactly when their bytes are. */
  lemma {:induction false} WordIsInjective(s: Bytes, t: Bytes)
    requires |s| == |t| <= 4
    ensures Word(s) == Word(t) <==> s == t
    decreases |s|
  {
    if s != [] {
      WordFits(s[1..]);
      WordFits(t[1..]);
      PrependByte(s[0], Word(s[1..]));
      PrependByte(t[0], Word(t[1..]));
      WordIsInjective(s[1..], t[1..]);
      WideIsInjective(s[0], t[0]);
      hide Word, Wide, Low, High;
      assert s == [s[0]] + s[1..] && t == [t[0]] + t[1..];
    }
  }

  lemma WideIsInjective(a: bv8, b: bv8)
    ensures Wide(a) == Wide(b) <==> a == b
  {
  }

  /** Up to four bytes act on the register like one word. */
  lemma {:induction false} FeedWord(c: bv32, s: Bytes)
    requires |s| <= 4
    ensures FeedBytes(c, s) == Shifts(Xor(c, Word(s)), 8 * |s|)
    decreases |s|
  {
    hide Shift, Xor, Wide, FeedBits, Shifts;
    if s == [] {
      XorZero(c);
      NoShifts(c);
    } else {
      var rest := Word(s[1..]);
      WordFits(s[1..]);
      FeedByte(c, s[0]);
      FeedWord(FeedBits(c, s[0], 8), s[1..]);
      FeedFront(c, s[0], rest);
      ShiftsCompose(Xor(c, Joined(s[0], rest)), 8, 8 * |s[1..]|);
    }
  }

  lemma NoShifts(c: bv32)
    ensures Shifts(c, 0) == c
  {
  }

  lemma OrIsXor(c: bv32, w: bv32, x: bv32)
    requires Disjoint(w, x)
    ensures Xor(c, Or(w, x)) == Xor(Xor(c, w), x)
  {
  }

  lemma BytesDisjoint(byte: bv8, rest: bv32)
    ensures Disjoint(Wide(byte), Up(rest)) && Low(Up(rest)) == 0
    ensures rest & 0xff000000 == 0 ==> High(Up(rest)) == rest
  {
  }

  lemma JoinedIsXor(c: bv32, byte: bv8, rest: bv32)
    ensures Xor(c, Joined(byte, rest)) == Xor(Xor(c, Wide(byte)), Up(rest))
  {
    hide Wide, Up, Xor, Or, Disjoint, Low, High;
    BytesDisjoint(byte, rest);
    OrIsXor(c, Wide(byte), Up(rest));
  }

  lemma FeedFront(c: bv32, byte: bv8, rest: bv32)
    requires rest & 0xff000000 == 0
    ensures Shifts(Xor(c, Joined(byte, rest)), 8) == Xor(Shift8(Xor(c, Wide(byte))), rest)
  {
    hide Shift, Shifts, Xor, Low, High, Wide, Up, Joined;
    BytesDisjoint(byte, rest);
    JoinedIsXor(c, byte, rest);
    ShiftsAreLinear(Xor(c, Wide(byte)), Up(rest), 8);
    UpperBytesFall(Up(rest));
  }

  /** Two messages that differ only within four consecutive bytes have different checksums; so a single wrong byte
      never goes unnoticed. */
  lemma BurstsAreDetected(before: Bytes, a: Bytes, b: Bytes, after: Bytes)
    requires |a| == |b| <= 4
    ensures Crc(before + a + after) == Crc(before + b + after) <==> a == b
  {
    hide Shifts, Xor, Word, FeedBytes;
    var c := FeedBytes(0xffffffff, before);
    FeedConcat(0xffffffff, before, a);
    FeedConcat(0xffffffff, before, b);
    FeedConcat(0xffffffff, before + a, after);
    FeedConcat(0xffffffff, before + b, after);
    FeedWord(c, a);
    FeedWord(c, b);
    FeedKeepsApart(FeedBytes(c, a), FeedBytes(c, b), after);
    ShiftsAreInjective(Xor(c, Word(a)), Xor(c, Word(b)), 8 * |a|);
    XorIsInjective(c, Word(a), Word(b));
    WordIsInjective(a, b);
    XorIsInjective(0xffffffff, FeedBytes(0xffffffff, before + a + after), FeedBytes(0xffffffff, before + b + after));
  }
}
