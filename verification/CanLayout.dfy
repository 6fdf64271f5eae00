/**
 The layout of a CAN packet bit by bit, stated about the bytes on the wire and not about the
 functions that build or read them: bit n of a byte string is bit n % 8 of its byte n / 8.
 Mirrors the packed struct of selfdrive/pandad/panda.h on a little-endian host.
 */
module CanLayout {
  import opened CanWire

  predicate BitOf(x: nat, k: nat) {
    x / Pow2(k) % 2 == 1
  }

  predicate WireBit(s: seq<byte>, n: nat)
    requires n < 8 * |s|
  {
    BitOf(s[n / 8], n % 8)
  }

  /** The bits of `value` stand at bit `at` and above. */
  ghost predicate WireField(s: seq<byte>, at: nat, width: nat, value: nat)
    requires at + width <= 8 * |s|
  {
    forall k :: 0 <= k < width ==> WireBit(s, at + k) == BitOf(value, k)
  }

  /** Six bytes hold a header: every field at its place. */
  ghost predicate HeaderLayout(s: seq<byte>, h: CanHeader) {
    && |s| >= 6
    && WireBit(s, 0) == h.reserved
    && WireField(s, 1, 3, h.bus)
    && WireField(s, 4, 4, h.dataLenCode)
    && WireBit(s, 8) == h.rejected
    && WireBit(s, 9) == h.returned
    && WireBit(s, 10) == h.extended
    && WireField(s, 11, 29, h.addr)
    && s[5] == h.checksum
  }

  /** What a message looks like on the wire: its bus within the block, the code of its length, the
      extended flag, the low 29 bits of its address, the payload, and a total XOR of zero. */
  ghost predicate PacketLayout(s: seq<byte>, m: CanMessage, busOffset: nat) {
    && m.src >= busOffset
    && |s| == 6 + |m.dat|
    && !WireBit(s, 0) && !WireBit(s, 8) && !WireBit(s, 9)
    && WireField(s, 1, 3, m.src - busOffset)
    && (exists code :: 0 <= code < 16 && DLC_TO_LEN[code] == |m.dat| && WireField(s, 4, 4, code))
    && WireBit(s, 10) == (m.address >= 0x800)
    && WireField(s, 11, 29, m.address)
    && s[6..] == m.dat
    && Checksum(s) == 0
  }

  /** What a packet means to a receiver: the source is the bus, marked by 0xC0 when the panda
      rejected the frame and by 0x80 when it echoes one that was sent. */
  ghost predicate FrameLayout(s: seq<byte>, f: CanFrame, busOffset: nat) {
    && |s| == 6 + |f.dat| && Checksum(s) == 0
    && f.dat == s[6..]
    && f.address < 0x2000_0000 && WireField(s, 11, 29, f.address)
    && (exists code :: 0 <= code < 16 && DLC_TO_LEN[code] == |f.dat| && WireField(s, 4, 4, code))
    && (exists bus :: 0 <= bus < 8 && WireField(s, 1, 3, bus)
          && f.src == busOffset + bus
                      + (if WireBit(s, 8) then 0xC0 else 0) + (if WireBit(s, 9) then 0x80 else 0))
  }

  // ---------- bits of numbers ----------

  lemma BitOfHalf(x: nat, k: nat)
    requires k > 0
    ensures BitOf(x, k) == BitOf(x / 2, k - 1)
  {
    DivTwice(x, Pow2(k - 1));
  }

  lemma LowestBit(x: nat)
    ensures BitOf(x, 0) <==> x % 2 == 1
  {
  }

  lemma FieldHalves(w: nat, lo: nat, width: nat)
    ensures lo > 0 ==> Field(w, lo, width) == Field(w / 2, lo - 1, width)
    ensures width > 0 ==> Field(w, 0, width) % 2 == w % 2 && Field(w, 0, width) / 2 == Field(w / 2, 0, width - 1)
  {
  }

  lemma {:induction false} BitOfField(w: nat, lo: nat, width: nat, j: nat)
    requires j < width
    ensures BitOf(Field(w, lo, width), j) == BitOf(w, lo + j)
    decreases lo, width
  {
    hide BitOf, Field;
    FieldHalves(w, lo, width);
    if lo > 0 {
      BitOfField(w / 2, lo - 1, width, j);
      BitOfHalf(w, lo + j);
    } else if j > 0 {
      BitOfField(w / 2, 0, width - 1, j - 1);
      BitOfHalf(w, j);
      BitOfHalf(Field(w, 0, width), j);
    } else {
      LowestBit(w);
      LowestBit(Field(w, 0, width));
    }
  }

  /** Bits above the lowest `shift`. */
  lemma {:induction false} BitOfShifted(low: nat, x: nat, shift: nat, k: nat)
    requires low < Pow2(shift)
    ensures BitOf(low + Pow2(shift) * x, shift + k) == BitOf(x, k)
    decreases shift
  {
    var w := low + Pow2(shift) * x;
    if shift > 0 {
      assert Pow2(shift) * x == 2 * (Pow2(shift - 1) * x);
      assert w / 2 == low / 2 + Pow2(shift - 1) * x;
      BitOfHalf(w, shift + k);
      BitOfShifted(low / 2, x, shift - 1, k);
    }
  }

  /** The bits below them. */
  lemma {:induction false} BitOfLow(low: nat, x: nat, shift: nat, k: nat)
    requires k < shift
    ensures BitOf(low + Pow2(shift) * x, k) == BitOf(low, k)
    decreases shift
  {
    var w := low + Pow2(shift) * x;
    assert Pow2(shift) * x == 2 * (Pow2(shift - 1) * x);
    assert w / 2 == low / 2 + Pow2(shift - 1) * x;
    if k > 0 {
      BitOfHalf(w, k);
      BitOfHalf(low, k);
      BitOfLow(low / 2, x, shift - 1, k - 1);
    }
  }

  lemma {:induction false} BitsDetermine(x: nat, y: nat, width: nat)
    requires x < Pow2(width) && y < Pow2(width)
    requires forall k :: 0 <= k < width ==> BitOf(x, k) == BitOf(y, k)
    ensures x == y
    decreases width
  {
    if width > 0 {
      assert BitOf(x, 0) == BitOf(y, 0);
      forall k | 0 <= k < width - 1 ensures BitOf(x / 2, k) == BitOf(y / 2, k) {
        BitOfHalf(x, k + 1);
        BitOfHalf(y, k + 1);
      }
      BitsDetermine(x / 2, y / 2, width - 1);
    }
  }

  // ---------- bits of headers ----------

  /** Bytes 1 to 4 are the address word, least significant byte first. */
  lemma WireBitOfWord(h: CanHeader, n: nat)
    requires h.Fits() && n < 32
    ensures WireBit(HeaderBytes(h), 8 + n) == BitOf(AddressWord(h), n)
  {
    hide Pow2, AddressWord, Field;
    var w := AddressWord(h);
    BitOfField(w, n / 8 * 8, 8, n % 8);
    FieldsAreBytes(w);
    assert n / 8 * 8 + n % 8 == n;
  }

  lemma BitsOfAddressWord(h: CanHeader)
    requires h.Fits()
    ensures var w := AddressWord(h);
            && BitOf(w, 0) == h.rejected && BitOf(w, 1) == h.returned && BitOf(w, 2) == h.extended
            && forall k: nat :: BitOf(w, 3 + k) == BitOf(h.addr, k)
  {
    Powers();
    var w := AddressWord(h);
    AddressWordFields(h, w);
    var low := Bit(h.rejected) + 2 * Bit(h.returned) + 4 * Bit(h.extended);
    forall k: nat ensures BitOf(w, 3 + k) == BitOf(h.addr, k) {
      BitOfShifted(low, h.addr, 3, k);
    }
  }

  lemma BitsOfFirstByte(h: CanHeader, b: nat)
    requires h.Fits() && b == Bit(h.reserved) + 2 * h.bus + 16 * h.dataLenCode
    ensures BitOf(b, 0) == h.reserved
    ensures forall k :: 0 <= k < 3 ==> BitOf(b, 1 + k) == BitOf(h.bus, k)
    ensures forall k :: 0 <= k < 4 ==> BitOf(b, 4 + k) == BitOf(h.dataLenCode, k)
  {
    Powers();
    FirstByteFields(h.reserved, h.bus, h.dataLenCode, b);
    assert BitOf(b, 0) == h.reserved;
    hide Pow2, BitOf;
    var low := Bit(h.reserved) + 2 * h.bus;
    forall k | 0 <= k < 3 ensures BitOf(b, 1 + k) == BitOf(h.bus, k) {
      BitOfLow(low, h.dataLenCode, 4, 1 + k);
      BitOfShifted(Bit(h.reserved), h.bus, 1, k);
    }
    forall k | 0 <= k < 4 ensures BitOf(b, 4 + k) == BitOf(h.dataLenCode, k) {
      BitOfShifted(low, h.dataLenCode, 4, k);
    }
  }

  /** The bytes of a header have the layout of the packed struct. */
  lemma HeaderBytesLayout(h: CanHeader)
    requires h.Fits()
    ensures HeaderLayout(HeaderBytes(h), h)
  {
    hide Pow2, AddressWord, Field, BitOf;
    var s := HeaderBytes(h);
    BitsOfFirstByte(h, s[0]);
    BitsOfAddressWord(h);
    WireBitOfWord(h, 0);
    WireBitOfWord(h, 1);
    WireBitOfWord(h, 2);
    forall k | 0 <= k < 29 ensures WireBit(s, 11 + k) == BitOf(h.addr, k) {
      WireBitOfWord(h, 3 + k);
    }
  }

  lemma LayoutIsPrefix(s: seq<byte>, t: seq<byte>, h: CanHeader)
    requires |s| == 6 && |t| >= 6 && t[..6] == s
    ensures HeaderLayout(s, h) <==> HeaderLayout(t, h)
  {
    hide BitOf;
    forall n: nat | n < 48 ensures WireBit(s, n) == WireBit(t, n) {
      assert s[n / 8] == t[n / 8];
    }
  }

  lemma LayoutDetermines(s: seq<byte>, h: CanHeader, g: CanHeader)
    requires h.Fits() && g.Fits() && HeaderLayout(s, h) && HeaderLayout(s, g)
    ensures h == g
  {
    hide Pow2, BitOf;
    Powers();
    BitsDetermine(h.bus, g.bus, 3) by {
      assert forall k :: 0 <= k < 3 ==> WireBit(s, 1 + k) == BitOf(h.bus, k);
    }
    BitsDetermine(h.dataLenCode, g.dataLenCode, 4) by {
      assert forall k :: 0 <= k < 4 ==> WireBit(s, 4 + k) == BitOf(h.dataLenCode, k);
    }
    BitsDetermine(h.addr, g.addr, 29) by {
      assert forall k :: 0 <= k < 29 ==> WireBit(s, 11 + k) == BitOf(h.addr, k);
    }
  }

  /** A header is read from bytes exactly if the bytes have its layout. */
  lemma ReadHeaderExactly(s: seq<byte>, h: CanHeader)
    requires |s| >= 6 && h.Fits()
    ensures ReadHeader(s) == h <==> HeaderLayout(s, h)
  {
    hide HeaderBytes;
    var g := ReadHeader(s);
    HeaderIsPrefix(s, []);
    HeaderBytesRoundTrip(s[..6]);
    HeaderBytesLayout(g);
    LayoutIsPrefix(s[..6], s, g);
    if HeaderLayout(s, h) {
      LayoutDetermines(s, h, g);
    }
  }

  // ---------- packets ----------

  lemma AddressBits(a: nat)
    ensures forall k :: 0 <= k < 29 ==> BitOf(a % 0x2000_0000, k) == BitOf(a, k)
  {
    Powers();
    forall k | 0 <= k < 29 ensures BitOf(a % 0x2000_0000, k) == BitOf(a, k) {
      BitOfLow(a % 0x2000_0000, a / 0x2000_0000, 29, k);
    }
  }

  /** Every message is packed with this layout. */
  lemma MessageBytesLayout(m: CanMessage, busOffset: nat)
    requires ForThisPanda(m, busOffset) && ValidLength(|m.dat|)
    ensures PacketLayout(MessageBytes(m, busOffset), m, busOffset)
  {
    hide BitOf, HeaderBytes, ReadHeader, Checksum, LenToDlc;
    var s := MessageBytes(m, busOffset);
    MessageHeaderReadsBack(m, busOffset, []);
    assert s + [] == s;
    ReadHeaderExactly(s, ReadHeader(s));
    LenToDlcIsTightest(|m.dat|);
    AddressBits(m.address);
    MessageChecksumIsZero(m, busOffset);
    assert s[6..] == m.dat;
    var code := LenToDlc(|m.dat|);
    assert WireField(s, 4, 4, code);
  }

  /** The messages meant for the panda with the buses `busOffset` to `busOffset + 3`. */
  function Mine(ms: seq<CanMessage>, busOffset: nat): seq<CanMessage> {
    if ms == [] then []
    else (if busOffset <= ms[0].src <= busOffset + 3 then [ms[0]] else []) + Mine(ms[1..], busOffset)
  }

  lemma StreamFirst(ms: seq<CanMessage>, busOffset: nat)
    requires ms != [] && forall m :: m in ms ==> Sendable(m, busOffset)
    ensures forall m :: m in ms[1..] ==> Sendable(m, busOffset)
    ensures ForThisPanda(ms[0], busOffset) ==>
      ValidLength(|ms[0].dat|)
      && StreamBytes(ms, busOffset) == MessageBytes(ms[0], busOffset) + StreamBytes(ms[1..], busOffset)
      && Mine(ms, busOffset) == [ms[0]] + Mine(ms[1..], busOffset)
    ensures !ForThisPanda(ms[0], busOffset) ==>
      StreamBytes(ms, busOffset) == StreamBytes(ms[1..], busOffset)
      && Mine(ms, busOffset) == Mine(ms[1..], busOffset)
  {
    hide MessageBytes, ValidLength;
    assert Sendable(ms[0], busOffset);
  }

  lemma ConcatFirst(first: seq<byte>, rest: seq<seq<byte>>)
    ensures Concat([first] + rest) == first + Concat(rest)
  {
    assert ([first] + rest)[1..] == rest;
  }

  /** The packed stream is one packet of that layout for each message of this panda, in order. */
  lemma {:induction false} StreamLayout(ms: seq<CanMessage>, busOffset: nat) returns (packets: seq<seq<byte>>)
    requires forall m :: m in ms ==> Sendable(m, busOffset)
    ensures Concat(packets) == StreamBytes(ms, busOffset)
    ensures |packets| == |Mine(ms, busOffset)|
    ensures forall i :: 0 <= i < |packets| ==> PacketLayout(packets[i], Mine(ms, busOffset)[i], busOffset)
  {
    hide PacketLayout, MessageBytes, ValidLength;
    packets := [];
    if ms != [] {
      StreamFirst(ms, busOffset);
      hide StreamBytes, Mine, Concat, Sendable;
      packets := StreamLayout(ms[1..], busOffset);
      if ForThisPanda(ms[0], busOffset) {
        var first := MessageBytes(ms[0], busOffset);
        MessageBytesLayout(ms[0], busOffset);
        ConcatFirst(first, packets);
        packets := [first] + packets;
      }
    }
  }

  lemma PacketFrameLayout(s: seq<byte>, busOffset: nat)
    requires !Incomplete(s) && Checksum(s[..PacketSize(s)]) == 0
    ensures FrameLayout(s[..PacketSize(s)], PacketFrame(s, busOffset), busOffset)
  {
    hide BitOf, ReadHeader, Checksum;
    var t, h := s[..PacketSize(s)], ReadHeader(s);
    assert s == t + s[PacketSize(s)..];
    HeaderIsPrefix(t, s[PacketSize(s)..]);
    ReadHeaderExactly(t, h);
    assert t[6..] == s[6..PacketSize(s)];
    assert WireField(t, 4, 4, h.dataLenCode) && WireField(t, 1, 3, h.bus);
  }

  /** The parse of any bytes: the frames are those of the packets the bytes consist of, in order, up
      to a rest too short for a packet or to the first packet whose XOR is not zero. */
  lemma {:induction false} ParseLayout(s: seq<byte>, busOffset: nat) returns (packets: seq<seq<byte>>)
    ensures var p := Parse(s, busOffset);
            && |packets| == |p.frames|
            && (forall i :: 0 <= i < |packets| ==> FrameLayout(packets[i], p.frames[i], busOffset))
            && Concat(packets) <= s
            && var left := s[|Concat(packets)|..];
            && (p.ok ==> left == p.rest && Incomplete(left))
            && (!p.ok ==> !Incomplete(left) && Checksum(left[..PacketSize(left)]) != 0)
  {
    hide FrameLayout, ReadHeader, Checksum;
    packets := [];
    if !Incomplete(s) && Checksum(s[..PacketSize(s)]) == 0 {
      var n := PacketSize(s);
      packets := ParseLayout(s[n..], busOffset);
      PacketFrameLayout(s, busOffset);
      assert s == s[..n] + s[n..];
      assert ([s[..n]] + packets)[1..] == packets;
      packets := [s[..n]] + packets;
      assert s[|Concat(packets)|..] == s[n..][|Concat(packets[1..])|..];
    }
  }
}
