/**
 The byte format of CAN packets between the host and a panda, and what a byte
 stream in that format means: the bit-packed six byte header, the CAN FD data
 length code and the XOR checksum, with the stream parser as a function.
 Mirrors selfdrive/pandad/panda.h and the pure parts of selfdrive/pandad/panda.cc.
 */
module CanWire {
  import opened Quotients

  type byte = b: int | 0 <= b < 0x100
  type uint32 = w: int | 0 <= w < 0x1_0000_0000

  const HEADER_SIZE := 6
  const MAX_DATA := 64
  const PANDA_BUS_OFFSET := 4
  const CAN_REJECTED_BUS_OFFSET := 0xC0
  const CAN_RETURNED_BUS_OFFSET := 0x80
  const DLC_TO_LEN: seq<nat> := [0, 1, 2, 3, 4, 5, 6, 7, 8, 12, 16, 20, 24, 32, 48, 64]

  // ---------- data length code ----------

  /** The code chosen for a payload of `len` bytes (integer divisions as in the source). */
  function LenToDlc(len: nat): nat {
    if len <= 8 then len
    else if len <= 24 then 8 + (len - 8) / 4 + (if len % 4 != 0 then 1 else 0)
    else 11 + len / 16 + (if len % 16 != 0 then 1 else 0)
  }

  predicate ValidLength(len: nat)
    ensures ValidLength(len) ==> len <= MAX_DATA
  {
    len in DLC_TO_LEN
  }

  /** The code is the smallest one whose payload size can hold `len` bytes, and it is
      exact on the sixteen sizes the bus can carry and on no other. */
  lemma LenToDlcIsTightest(len: nat)
    requires len <= MAX_DATA
    ensures LenToDlc(len) < 16
    ensures len <= DLC_TO_LEN[LenToDlc(len)]
    ensures forall c :: 0 <= c < LenToDlc(len) ==> DLC_TO_LEN[c] < len
    ensures DLC_TO_LEN[LenToDlc(len)] == len <==> ValidLength(len)
  {
    if len > 8 {
      if len <= 24 {
        assert len == 4 * (len / 4) + len % 4;
      } else {
        assert len == 16 * (len / 16) + len % 16;
      }
    }
  }

  function DataLen(code: nat): (len: nat)
    requires code < 16
    ensures len <= MAX_DATA
  {
    DLC_TO_LEN[code]
  }

  // ---------- header ----------

  /** struct can_header: bit fields packed from the least significant bit up. */
  datatype CanHeader = CanHeader(
    reserved: bool,     // 1 bit
    bus: nat,           // 3 bits
    dataLenCode: nat,   // 4 bits
    rejected: bool,     // 1 bit
    returned: bool,     // 1 bit
    extended: bool,     // 1 bit
    addr: nat,          // 29 bits
    checksum: byte)     // 8 bits
  {
    predicate Fits() {
      bus < 8 && dataLenCode < 16 && addr < 0x2000_0000
    }
  }

  function Bit(b: bool): nat {
    if b then 1 else 0
  }

  function Pow2(bits: nat): (p: nat)
    ensures p > 0
  {
    if bits == 0 then 1 else 2 * Pow2(bits - 1)
  }

  /** The bit field of `width` bits that starts `lo` bits above the least significant one. */
  function Field(w: nat, lo: nat, width: nat): (v: nat)
    decreases lo, width
  {
    if lo > 0 then Field(w / 2, lo - 1, width)
    else if width == 0 then 0
    else w % 2 + 2 * Field(w / 2, 0, width - 1)
  }

  lemma {:induction false} LowFieldIsMod(w: nat, width: nat)
    ensures Field(w, 0, width) == w % Pow2(width)
    decreases width
  {
    if width > 0 {
      LowFieldIsMod(w / 2, width - 1);
      ModTwice(w, Pow2(width - 1));
    }
  }

  lemma {:induction false} FieldIsDivMod(w: nat, lo: nat, width: nat)
    ensures Field(w, lo, width) == w / Pow2(lo) % Pow2(width)
    decreases lo
  {
    if lo == 0 {
      LowFieldIsMod(w, width);
    } else {
      FieldIsDivMod(w / 2, lo - 1, width);
      DivTwice(w, Pow2(lo - 1));
    }
  }

  lemma DivTwice(w: nat, p: nat)
    requires p > 0
    ensures w / 2 / p == w / (2 * p)
  {
    var q, r := w / 2 / p, w / 2 % p;
    assert w == (2 * p) * q + (2 * r + w % 2);
    DivModUnique(w, 2 * p, q, 2 * r + w % 2);
  }

  lemma ModTwice(w: nat, p: nat)
    requires p > 0
    ensures w % (2 * p) == w % 2 + 2 * (w / 2 % p)
  {
    var q, r := w / 2 / p, w / 2 % p;
    assert w == (2 * p) * q + (2 * r + w % 2);
    DivModUnique(w, 2 * p, q, 2 * r + w % 2);
  }

  lemma Powers()
    ensures Pow2(0) == 1 && Pow2(1) == 2 && Pow2(2) == 4 && Pow2(3) == 8 && Pow2(4) == 0x10
    ensures Pow2(8) == 0x100 && Pow2(16) == 0x1_0000 && Pow2(24) == 0x100_0000
    ensures Pow2(29) == 0x2000_0000
  {
  }

  /** The 32 bits after the first byte. */
  function AddressWord(h: CanHeader): (w: nat)
    requires h.Fits()
    ensures w < 0x1_0000_0000
  {
    Bit(h.rejected) + 2 * Bit(h.returned) + 4 * Bit(h.extended) + 8 * h.addr
  }

  function HeaderBytes(h: CanHeader): (s: seq<byte>)
    requires h.Fits()
    ensures |s| == HEADER_SIZE
  {
    var w := AddressWord(h);
    FieldsAreBytes(w);
    [ Bit(h.reserved) + 2 * h.bus + 16 * h.dataLenCode,
      Field(w, 0, 8), Field(w, 8, 8), Field(w, 16, 8), Field(w, 24, 8),
      h.checksum ]
  }

  lemma FieldsAreBytes(w: nat)
    ensures Field(w, 0, 8) < 0x100 && Field(w, 8, 8) < 0x100 && Field(w, 16, 8) < 0x100 && Field(w, 24, 8) < 0x100
  {
    hide Field, Pow2;
    Powers();
    FieldIsDivMod(w, 0, 8);
    FieldIsDivMod(w, 8, 8);
    FieldIsDivMod(w, 16, 8);
    FieldIsDivMod(w, 24, 8);
  }

  function LittleEndian(b1: int, b2: int, b3: int, b4: int): int {
    b1 + 0x100 * b2 + 0x1_0000 * b3 + 0x100_0000 * b4
  }

  function ReadHeader(s: seq<byte>): (h: CanHeader)
    requires |s| >= HEADER_SIZE
    ensures h.Fits()
  {
    var w: nat := LittleEndian(s[1], s[2], s[3], s[4]);
    FieldValues(s[0], w);
    CanHeader(Field(s[0], 0, 1) == 1, Field(s[0], 1, 3), Field(s[0], 4, 4),
              Field(w, 0, 1) == 1, Field(w, 1, 1) == 1, Field(w, 2, 1) == 1, Field(w, 3, 29), s[5])
  }

  lemma FieldValues(b: nat, w: nat)
    ensures Field(b, 0, 1) == b % 2 && Field(b, 1, 3) == b / 2 % 8 && Field(b, 4, 4) == b / 16 % 16
    ensures Field(w, 0, 1) == w % 2 && Field(w, 1, 1) == w / 2 % 2 && Field(w, 2, 1) == w / 4 % 2
    ensures Field(w, 3, 29) == w / 8 % 0x2000_0000
  {
    hide Field, Pow2;
    Powers();
    FieldIsDivMod(b, 0, 1);
    FieldIsDivMod(b, 1, 3);
    FieldIsDivMod(b, 4, 4);
    FieldIsDivMod(w, 0, 1);
    FieldIsDivMod(w, 1, 1);
    FieldIsDivMod(w, 2, 1);
    FieldIsDivMod(w, 3, 29);
  }

  lemma ByteValues(w: nat)
    requires w < 0x1_0000_0000
    ensures Field(w, 0, 8) == w % 0x100 && Field(w, 8, 8) == w / 0x100 % 0x100
    ensures Field(w, 16, 8) == w / 0x1_0000 % 0x100 && Field(w, 24, 8) == w / 0x100_0000
  {
    hide Field, Pow2;
    Powers();
    FieldIsDivMod(w, 0, 8);
    FieldIsDivMod(w, 8, 8);
    FieldIsDivMod(w, 16, 8);
    FieldIsDivMod(w, 24, 8);
  }

  lemma WordParts(w: nat)
    requires w < 0x1_0000_0000
    ensures LittleEndian(w % 0x100, w / 0x100 % 0x100, w / 0x1_0000 % 0x100, w / 0x100_0000) == w
  {
    assert w / 0x1_0000 == w / 0x1_0000 % 0x100 + 0x100 * (w / 0x100_0000);
    assert w / 0x100 == w / 0x100 % 0x100 + 0x100 * (w / 0x1_0000);
  }

  lemma WordOfBytes(w: nat)
    requires w < 0x1_0000_0000
    ensures LittleEndian(Field(w, 0, 8), Field(w, 8, 8), Field(w, 16, 8), Field(w, 24, 8)) == w
  {
    ByteValues(w);
    WordParts(w);
  }

  lemma PartsOfBytes(b1: byte, b2: byte, b3: byte, b4: byte, w: int)
    requires w == LittleEndian(b1, b2, b3, b4)
    ensures 0 <= w < 0x1_0000_0000
    ensures w % 0x100 == b1 && w / 0x100 % 0x100 == b2 && w / 0x1_0000 % 0x100 == b3 && w / 0x100_0000 == b4
  {
    assert w / 0x100_0000 == b4;
    assert w / 0x1_0000 == b3 + 0x100 * b4;
    assert w / 0x100 == b2 + 0x100 * b3 + 0x1_0000 * b4;
  }

  lemma BytesOfWord(b1: byte, b2: byte, b3: byte, b4: byte, w: int)
    requires w == LittleEndian(b1, b2, b3, b4)
    ensures 0 <= w < 0x1_0000_0000
    ensures Field(w, 0, 8) == b1 && Field(w, 8, 8) == b2 && Field(w, 16, 8) == b3 && Field(w, 24, 8) == b4
  {
    PartsOfBytes(b1, b2, b3, b4, w);
    ByteValues(w);
  }

  lemma FirstByteFields(r: bool, bus: nat, code: nat, b: nat)
    requires bus < 8 && code < 16 && b == Bit(r) + 2 * bus + 16 * code
    ensures (b % 2 == 1) == r && b / 2 % 8 == bus && b / 16 % 16 == code
  {
    assert b / 2 == bus + 8 * code;
  }

  lemma AddressWordFields(h: CanHeader, w: nat)
    requires h.Fits() && w == AddressWord(h)
    ensures (w % 2 == 1) == h.rejected && (w / 2 % 2 == 1) == h.returned
    ensures (w / 4 % 2 == 1) == h.extended && w / 8 % 0x2000_0000 == h.addr
  {
    assert w / 2 == Bit(h.returned) + 2 * Bit(h.extended) + 4 * h.addr;
    assert w / 4 == Bit(h.extended) + 2 * h.addr;
  }

  lemma HeaderRoundTrip(h: CanHeader)
    requires h.Fits()
    ensures ReadHeader(HeaderBytes(h)) == h
  {
    hide Field, LittleEndian;
    var w := AddressWord(h);
    WordOfBytes(w);
    AddressWordFields(h, w);
    FirstByteFields(h.reserved, h.bus, h.dataLenCode, HeaderBytes(h)[0]);
    FieldValues(HeaderBytes(h)[0], w);
  }

  lemma BitsOfWord(w: nat)
    requires w < 0x1_0000_0000
    ensures w == Bit(w % 2 == 1) + 2 * Bit(w / 2 % 2 == 1) + 4 * Bit(w / 4 % 2 == 1) + 8 * (w / 8 % 0x2000_0000)
  {
    assert w / 4 == Bit(w / 4 % 2 == 1) + 2 * (w / 8);
    assert w / 2 == Bit(w / 2 % 2 == 1) + 2 * (w / 4);
  }

  lemma BitsOfByte(b: byte)
    ensures b == Bit(b % 2 == 1) + 2 * (b / 2 % 8) + 16 * (b / 16 % 16)
  {
    assert b / 2 == b / 2 % 8 + 8 * (b / 16);
  }

  /** Headers and six byte strings correspond one to one: no bit is lost either way. */
  lemma HeaderBytesRoundTrip(s: seq<byte>)
    requires |s| == HEADER_SIZE
    ensures HeaderBytes(ReadHeader(s)) == s
  {
    hide Field, LittleEndian;
    var w: int := LittleEndian(s[1], s[2], s[3], s[4]);
    BytesOfWord(s[1], s[2], s[3], s[4], w);
    FieldValues(s[0], w);
    BitsOfWord(w);
    BitsOfByte(s[0]);
    var h := ReadHeader(s);
    assert AddressWord(h) == w;
    assert HeaderBytes(h)[0] == s[0];
  }

  // ---------- checksum ----------

  /** Bitwise exclusive or of the low `bits` bits. */
  function XorBits(a: nat, b: nat, bits: nat): (x: nat)
    decreases bits
  {
    if bits == 0 then 0 else Bit(a % 2 != b % 2) + 2 * XorBits(a / 2, b / 2, bits - 1)
  }

  lemma {:induction false} XorBitsInRange(a: nat, b: nat, bits: nat)
    ensures XorBits(a, b, bits) < Pow2(bits)
    decreases bits
  {
    if bits > 0 {
      XorBitsInRange(a / 2, b / 2, bits - 1);
    }
  }

  function Xor(a: byte, b: byte): byte {
    XorBitsInRange(a, b, 8);
    assert Pow2(8) == 0x100;
    XorBits(a, b, 8)
  }

  /** XOR of all bytes. */
  function Checksum(s: seq<byte>): byte {
    if s == [] then 0 else Xor(Checksum(s[..|s| - 1]), s[|s| - 1])
  }

  lemma {:induction false} XorBitsAssociative(a: nat, b: nat, c: nat, bits: nat)
    ensures XorBits(XorBits(a, b, bits), c, bits) == XorBits(a, XorBits(b, c, bits), bits)
    decreases bits
  {
    if bits > 0 {
      XorBitsAssociative(a / 2, b / 2, c / 2, bits - 1);
      var ab, bc := XorBits(a, b, bits), XorBits(b, c, bits);
      assert ab / 2 == XorBits(a / 2, b / 2, bits - 1) && bc / 2 == XorBits(b / 2, c / 2, bits - 1);
    }
  }

  lemma {:induction false} XorBitsLaws(a: nat, b: nat, bits: nat)
    requires a < Pow2(bits) && b < Pow2(bits)
    ensures XorBits(a, b, bits) == XorBits(b, a, bits)
    ensures XorBits(a, 0, bits) == a
    ensures XorBits(a, b, bits) == 0 <==> a == b
    decreases bits
  {
    if bits > 0 {
      XorBitsLaws(a / 2, b / 2, bits - 1);
    }
  }

  lemma XorAssociative(a: byte, b: byte, c: byte)
    ensures Xor(Xor(a, b), c) == Xor(a, Xor(b, c))
  {
    XorBitsAssociative(a, b, c, 8);
  }

  lemma XorLaws(a: byte, b: byte)
    ensures Xor(a, b) == Xor(b, a)
    ensures Xor(a, 0) == a
    ensures Xor(a, b) == 0 <==> a == b
  {
    assert Pow2(8) == 0x100;
    XorBitsLaws(a, b, 8);
  }

  lemma {:induction false} ChecksumConcat(s: seq<byte>, t: seq<byte>)
    ensures Checksum(s + t) == Xor(Checksum(s), Checksum(t))
  {
    if t == [] {
      assert s + t == s;
      XorLaws(Checksum(s), 0);
    } else {
      var init := t[..|t| - 1];
      assert (s + t)[..|s + t| - 1] == s + init;
      ChecksumConcat(s, init);
      XorAssociative(Checksum(s), Checksum(init), t[|t| - 1]);
    }
  }

  lemma ChecksumAround(before: seq<byte>, x: byte, after: seq<byte>)
    ensures Checksum(before + [x] + after) == Xor(Xor(Checksum(before), Checksum(after)), x)
  {
    ChecksumConcat(before + [x], after);
    assert (before + [x])[..|before|] == before;
    XorAssociative(Checksum(before), x, Checksum(after));
    XorAssociative(Checksum(before), Checksum(after), x);
    XorLaws(x, Checksum(after));
  }

  /** Overwriting one byte keeps the checksum of the other bytes. */
  lemma ChecksumUpdate(s: seq<byte>, i: nat, b: byte) returns (others: byte)
    requires i < |s|
    ensures Checksum(s) == Xor(others, s[i])
    ensures Checksum(s[i := b]) == Xor(others, b)
  {
    var before, after := s[..i], s[i + 1..];
    assert s == before + [s[i]] + after;
    assert s[i := b] == before + [b] + after;
    ChecksumAround(before, s[i], after);
    ChecksumAround(before, b, after);
    others := Xor(Checksum(before), Checksum(after));
  }

  // ---------- messages ----------

  /** A CAN message handed to pandad for sending (cereal CanData). */
  datatype CanMessage = CanMessage(address: uint32, dat: seq<byte>, src: nat)

  /** A frame delivered by pandad (struct can_frame). */
  datatype CanFrame = CanFrame(address: nat, dat: seq<byte>, src: nat)

  predicate ForThisPanda(m: CanMessage, busOffset: nat) {
    busOffset <= m.src < busOffset + PANDA_BUS_OFFSET
  }

  /** What the assertions in the packing loop demand of a message that is sent. */
  predicate Sendable(m: CanMessage, busOffset: nat) {
    ForThisPanda(m, busOffset) ==> ValidLength(|m.dat|)
  }

  /** The header a message is sent with, checksum still zero; the address field keeps the
      low 29 bits. */
  function MessageHeader(m: CanMessage, busOffset: nat): (h: CanHeader)
    requires ForThisPanda(m, busOffset) && ValidLength(|m.dat|)
    ensures h.Fits()
  {
    LenToDlcIsTightest(|m.dat|);
    CanHeader(false, m.src - busOffset, LenToDlc(|m.dat|), false, false,
              m.address >= 0x800, m.address % 0x2000_0000, 0)
  }

  /** A packet whose checksum byte is still zero, with the checksum filled in. */
  function Seal(s: seq<byte>): (t: seq<byte>)
    requires |s| >= HEADER_SIZE
    ensures |t| == |s|
  {
    s[5 := Checksum(s)]
  }

  /** The packet on the wire. */
  function MessageBytes(m: CanMessage, busOffset: nat): (s: seq<byte>)
    requires ForThisPanda(m, busOffset) && ValidLength(|m.dat|)
    ensures |s| == HEADER_SIZE + |m.dat|
  {
    Seal(HeaderBytes(MessageHeader(m, busOffset)) + m.dat)
  }

  /** The bytes of all messages meant for this panda, in order. */
  function StreamBytes(ms: seq<CanMessage>, busOffset: nat): seq<byte>
    requires forall m :: m in ms ==> Sendable(m, busOffset)
  {
    if ms == [] then []
    else
      assert Sendable(ms[0], busOffset);
      (if ForThisPanda(ms[0], busOffset) then MessageBytes(ms[0], busOffset) else [])
         + StreamBytes(ms[1..], busOffset)
  }

  /** The frames a receiver should see for those messages. */
  function ExpectedFrames(ms: seq<CanMessage>, busOffset: nat): seq<CanFrame> {
    if ms == [] then []
    else (if ForThisPanda(ms[0], busOffset) then [CanFrame(ms[0].address % 0x2000_0000, ms[0].dat, ms[0].src)] else [])
         + ExpectedFrames(ms[1..], busOffset)
  }

  // ---------- parsing ----------

  datatype Parsed = Parsed(frames: seq<CanFrame>, rest: seq<byte>, ok: bool)

  function PacketSize(s: seq<byte>): (n: nat)
    requires |s| >= HEADER_SIZE
    ensures HEADER_SIZE <= n <= HEADER_SIZE + MAX_DATA
  {
    HEADER_SIZE + DataLen(ReadHeader(s).dataLenCode)
  }

  /** No whole packet is available at the front of `s`. */
  predicate Incomplete(s: seq<byte>) {
    |s| < HEADER_SIZE || |s| < PacketSize(s)
  }

  function FrameSrc(h: CanHeader, busOffset: nat): nat {
    h.bus + busOffset
    + (if h.rejected then CAN_REJECTED_BUS_OFFSET else 0)
    + (if h.returned then CAN_RETURNED_BUS_OFFSET else 0)
  }

  function PacketFrame(s: seq<byte>, busOffset: nat): CanFrame
    requires !Incomplete(s)
  {
    var h := ReadHeader(s);
    CanFrame(h.addr, s[HEADER_SIZE..PacketSize(s)], FrameSrc(h, busOffset))
  }

  function Prepend(fs: seq<CanFrame>, p: Parsed): Parsed {
    p.(frames := fs + p.frames)
  }

  /** Meaning of a byte stream: the whole packets at its front and the unfinished rest. A
      packet whose checksum fails ends the parse and discards everything after it. */
  function Parse(s: seq<byte>, busOffset: nat): Parsed {
    if Incomplete(s) then Parsed([], s, true)
    else if Checksum(s[..PacketSize(s)]) != 0 then Parsed([], [], false)
    else
      var tail := Parse(s[PacketSize(s)..], busOffset);
      Prepend([PacketFrame(s, busOffset)], tail)
  }

  lemma {:induction false} RestIsIncomplete(s: seq<byte>, busOffset: nat)
    ensures Incomplete(Parse(s, busOffset).rest)
    ensures |Parse(s, busOffset).rest| < HEADER_SIZE + MAX_DATA
  {
    if !Incomplete(s) && Checksum(s[..PacketSize(s)]) == 0 {
      RestIsIncomplete(s[PacketSize(s)..], busOffset);
    }
  }

  lemma HeaderIsPrefix(s: seq<byte>, t: seq<byte>)
    requires |s| >= HEADER_SIZE
    ensures ReadHeader(s + t) == ReadHeader(s)
    ensures ReadHeader(s[..HEADER_SIZE]) == ReadHeader(s)
  {
    assert (s + t)[0] == s[0] && (s + t)[1] == s[1] && (s + t)[2] == s[2];
    assert (s + t)[3] == s[3] && (s + t)[4] == s[4] && (s + t)[5] == s[5];
  }

  lemma PacketIsPrefix(s: seq<byte>, t: seq<byte>, busOffset: nat)
    requires !Incomplete(s)
    ensures !Incomplete(s + t) && PacketSize(s + t) == PacketSize(s)
    ensures PacketFrame(s + t, busOffset) == PacketFrame(s, busOffset)
    ensures (s + t)[..PacketSize(s)] == s[..PacketSize(s)]
    ensures (s + t)[PacketSize(s)..] == s[PacketSize(s)..] + t
  {
    HeaderIsPrefix(s, t);
    assert (s + t)[HEADER_SIZE..PacketSize(s)] == s[HEADER_SIZE..PacketSize(s)];
  }

  lemma PrependTwice(f: seq<CanFrame>, g: seq<CanFrame>, p: Parsed)
    ensures Prepend(f, Prepend(g, p)) == Prepend(f + g, p)
    ensures Prepend([], p) == p
  {
    assert f + (g + p.frames) == (f + g) + p.frames;
    assert [] + p.frames == p.frames;
  }

  /** Parsing may be suspended anywhere: bytes that arrive later continue from the rest. */
  lemma {:induction false} ParseConcat(s: seq<byte>, t: seq<byte>, busOffset: nat)
    ensures var p := Parse(s, busOffset);
            Parse(s + t, busOffset) == if p.ok then Prepend(p.frames, Parse(p.rest + t, busOffset)) else p
  {
    hide Checksum, ReadHeader;
    if Incomplete(s) {
      PrependTwice([], [], Parse(s + t, busOffset));
    } else {
      PacketIsPrefix(s, t, busOffset);
      var n := PacketSize(s);
      if Checksum(s[..n]) == 0 {
        ParseConcat(s[n..], t, busOffset);
        var p := Parse(s[n..], busOffset);
        if p.ok {
          PrependTwice([PacketFrame(s, busOffset)], p.frames, Parse(p.rest + t, busOffset));
        }
      }
    }
  }

  // ---------- printing then parsing ----------

  lemma SealedChecksumIsZero(s: seq<byte>)
    requires |s| >= HEADER_SIZE && s[5] == 0
    ensures Checksum(Seal(s)) == 0
  {
    var others := ChecksumUpdate(s, 5, Checksum(s));
    XorLaws(others, 0);
    XorLaws(others, others);
  }

  lemma MessageChecksumIsZero(m: CanMessage, busOffset: nat)
    requires ForThisPanda(m, busOffset) && ValidLength(|m.dat|)
    ensures Checksum(MessageBytes(m, busOffset)) == 0
  {
    var header := HeaderBytes(MessageHeader(m, busOffset));
    assert header[5] == 0;
    SealedChecksumIsZero(header + m.dat);
  }

  /** Sealing, and bytes that follow, change nothing but the checksum field. */
  lemma SealedHeader(s: seq<byte>, t: seq<byte>)
    requires |s| >= HEADER_SIZE
    ensures ReadHeader(Seal(s) + t) == ReadHeader(s).(checksum := Checksum(s))
  {
    var u := Seal(s) + t;
    assert u[0] == s[0] && u[1] == s[1] && u[2] == s[2] && u[3] == s[3] && u[4] == s[4] && u[5] == Checksum(s);
  }

  lemma MessageHeaderReadsBack(m: CanMessage, busOffset: nat, t: seq<byte>)
    requires ForThisPanda(m, busOffset) && ValidLength(|m.dat|)
    ensures var h := ReadHeader(MessageBytes(m, busOffset) + t);
            h == MessageHeader(m, busOffset).(checksum := h.checksum)
  {
    var h := MessageHeader(m, busOffset);
    HeaderRoundTrip(h);
    HeaderIsPrefix(HeaderBytes(h), m.dat);
    SealedHeader(HeaderBytes(h) + m.dat, t);
  }

  lemma MessageParsesFirst(m: CanMessage, busOffset: nat, t: seq<byte>)
    requires ForThisPanda(m, busOffset) && ValidLength(|m.dat|)
    ensures var s := MessageBytes(m, busOffset) + t;
            !Incomplete(s) && PacketSize(s) == HEADER_SIZE + |m.dat|
            && PacketFrame(s, busOffset) == CanFrame(m.address % 0x2000_0000, m.dat, m.src)
  {
    var s := MessageBytes(m, busOffset) + t;
    MessageHeaderReadsBack(m, busOffset, t);
    LenToDlcIsTightest(|m.dat|);
    assert s[HEADER_SIZE..HEADER_SIZE + |m.dat|] == m.dat;
  }

  lemma ParsePacket(m: CanMessage, busOffset: nat, later: seq<byte>)
    requires ForThisPanda(m, busOffset) && ValidLength(|m.dat|)
    ensures Parse(MessageBytes(m, busOffset) + later, busOffset)
            == Prepend([CanFrame(m.address % 0x2000_0000, m.dat, m.src)], Parse(later, busOffset))
  {
    var s := MessageBytes(m, busOffset) + later;
    MessageParsesFirst(m, busOffset, later);
    MessageChecksumIsZero(m, busOffset);
    assert s[..PacketSize(s)] == MessageBytes(m, busOffset);
    assert s[PacketSize(s)..] == later;
  }

  /** Whatever is packed is parsed back: same messages, same order, nothing left over. */
  lemma {:induction false} StreamRoundTrip(ms: seq<CanMessage>, busOffset: nat)
    requires forall m :: m in ms ==> Sendable(m, busOffset)
    ensures Parse(StreamBytes(ms, busOffset), busOffset) == Parsed(ExpectedFrames(ms, busOffset), [], true)
  {
    if ms != [] {
      var m, later := ms[0], StreamBytes(ms[1..], busOffset);
      StreamRoundTrip(ms[1..], busOffset);
      assert Sendable(m, busOffset);
      if ForThisPanda(m, busOffset) {
        ParsePacket(m, busOffset, later);
      } else {
        assert StreamBytes(ms, busOffset) == later;
        assert ExpectedFrames(ms, busOffset) == ExpectedFrames(ms[1..], busOffset);
      }
    }
  }

  lemma CodeIsHighNibble(s: seq<byte>)
    requires |s| >= HEADER_SIZE
    ensures ReadHeader(s).dataLenCode == s[0] / 16
  {
    hide Field, LittleEndian;
    FieldValues(s[0], 0);
    assert s[0] / 16 < 16;
  }

  /** Any damage confined to one byte of a packet that leaves its length code alone makes the
      receiver reject the packet instead of delivering a wrong frame. */
  lemma OneByteErrorIsCaught(m: CanMessage, busOffset: nat, i: nat, b: byte, t: seq<byte>)
    requires ForThisPanda(m, busOffset) && ValidLength(|m.dat|)
    requires i < HEADER_SIZE + |m.dat| && b != MessageBytes(m, busOffset)[i]
    requires i == 0 ==> b / 16 == MessageBytes(m, busOffset)[0] / 16
    ensures Parse(MessageBytes(m, busOffset)[i := b] + t, busOffset) == Parsed([], [], false)
  {
    hide HeaderBytes, MessageHeader, Checksum, LenToDlc, ReadHeader, MessageBytes;
    var bytes := MessageBytes(m, busOffset);
    var bad := bytes[i := b];
    MessageParsesFirst(m, busOffset, []);
    assert bytes + [] == bytes;
    CodeIsHighNibble(bytes);
    CodeIsHighNibble(bad + t);
    assert (bad + t)[..|bytes|] == bad;
    MessageChecksumIsZero(m, busOffset);
    var others := ChecksumUpdate(bytes, i, b);
    XorLaws(others, bytes[i]);
    XorLaws(others, b);
  }

  // ---------- fragmentation ----------

  function Concat(pieces: seq<seq<byte>>): seq<byte> {
    if pieces == [] then [] else pieces[0] + Concat(pieces[1..])
  }

  /** Feeding pieces one at a time, keeping the unfinished rest between them. After a bad
      packet the receiver drops what it holds and carries on with the next piece. */
  function Feed(held: seq<byte>, pieces: seq<seq<byte>>, busOffset: nat): Parsed
    decreases |pieces|
  {
    if pieces == [] then Parsed([], held, true)
    else
      var p := Parse(held + pieces[0], busOffset);
      var later := Feed(p.rest, pieces[1..], busOffset);
      Parsed(p.frames + later.frames, later.rest, p.ok && later.ok)
  }

  /** Cuts do not matter: on a stream without a bad packet every fragmentation gives the
      result of parsing the stream in one go; on a stream with one, every fragmentation
      delivers the frames before it first and reports the failure. */
  lemma {:induction false} FeedIgnoresCuts(held: seq<byte>, pieces: seq<seq<byte>>, busOffset: nat)
    requires Incomplete(held)
    ensures var whole := Parse(held + Concat(pieces), busOffset);
            var fed := Feed(held, pieces, busOffset);
            && fed.ok == whole.ok
            && (whole.ok ==> fed == whole)
            && whole.frames <= fed.frames
    decreases |pieces|
  {
    hide Checksum, ReadHeader;
    if pieces == [] {
      assert held + Concat(pieces) == held;
    } else {
      var p := Parse(held + pieces[0], busOffset);
      var rest := Concat(pieces[1..]);
      assert held + Concat(pieces) == (held + pieces[0]) + rest;
      ParseConcat(held + pieces[0], rest, busOffset);
      RestIsIncomplete(held + pieces[0], busOffset);
      FeedIgnoresCuts(p.rest, pieces[1..], busOffset);
      if p.ok {
        var later, whole := Feed(p.rest, pieces[1..], busOffset), Parse(p.rest + rest, busOffset);
        assert p.frames + whole.frames <= p.frames + later.frames;
      }
    }
  }

  /** End to end: the messages for this panda arrive in order, unchanged but for address bits beyond
      the 29 of the header, however the packed bytes are cut on the way, and the receive buffer is
      empty afterwards. */
  lemma TransportIsExact(ms: seq<CanMessage>, pieces: seq<seq<byte>>, busOffset: nat)
    requires forall m :: m in ms ==> Sendable(m, busOffset)
    requires Concat(pieces) == StreamBytes(ms, busOffset)
    ensures Feed([], pieces, busOffset) == Parsed(ExpectedFrames(ms, busOffset), [], true)
  {
    FeedIgnoresCuts([], pieces, busOffset);
    assert [] + Concat(pieces) == StreamBytes(ms, busOffset);
    StreamRoundTrip(ms, busOffset);
  }
}
