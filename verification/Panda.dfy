/**
 The imperative side of selfdrive/pandad/panda.cc: packing into a fixed buffer that is
 flushed in chunks, and the resumable receive buffer that is parsed in place.
 Each method is proved against the stream functions of CanWire.
 */
module PandaComms {
  import opened CanWire
  import opened CanLayout

  const USB_TX_SOFT_LIMIT := 0x100
  const RECV_SIZE := 0x4000
  const SIZE_T_MODULUS := 0x1_0000_0000_0000_0000

  /** Unsigned 64-bit subtraction. */
  function SizeTMinus(a: nat, b: nat): nat
    requires a < SIZE_T_MODULUS && b < SIZE_T_MODULUS
  {
    if a >= b then a - b else a - b + SIZE_T_MODULUS
  }

  // ---------- facts about appending at the end ----------

  lemma {:induction false} ConcatAppend(pieces: seq<seq<byte>>, last: seq<byte>)
    ensures Concat(pieces + [last]) == Concat(pieces) + last
  {
    if pieces == [] {
      assert Concat([last]) == last + [];
    } else {
      assert (pieces + [last])[1..] == pieces[1..] + [last];
      ConcatAppend(pieces[1..], last);
    }
  }

  lemma {:induction false} StreamAppend(ms: seq<CanMessage>, m: CanMessage, busOffset: nat)
    requires forall x :: x in ms ==> Sendable(x, busOffset)
    requires Sendable(m, busOffset)
    ensures StreamBytes(ms + [m], busOffset)
            == StreamBytes(ms, busOffset) + if ForThisPanda(m, busOffset) then MessageBytes(m, busOffset) else []
  {
    if ms == [] {
      assert ([] + [m])[1..] == [];
    } else {
      assert (ms + [m])[1..] == ms[1..] + [m];
      assert Sendable(ms[0], busOffset);
      StreamAppend(ms[1..], m, busOffset);
    }
  }

  lemma SliceHeader(d: seq<byte>, pos: nat, size: nat)
    requires pos + HEADER_SIZE <= size <= |d|
    ensures ReadHeader(d[pos..pos + HEADER_SIZE]) == ReadHeader(d[pos..size])
  {
    assert d[pos..size][..HEADER_SIZE] == d[pos..pos + HEADER_SIZE];
    HeaderIsPrefix(d[pos..size], []);
  }

  /** The bytes up to `size` do not hold the whole packet that starts at `pos`. */
  lemma ShortPacket(d: seq<byte>, pos: nat, size: nat)
    requires pos <= size <= |d| && pos + HEADER_SIZE <= |d|
    requires pos + HEADER_SIZE > size
             || pos + HEADER_SIZE + DataLen(ReadHeader(d[pos..pos + HEADER_SIZE]).dataLenCode) > size
    ensures Incomplete(d[pos..size])
  {
    if pos + HEADER_SIZE <= size {
      SliceHeader(d, pos, size);
    }
  }

  /** A whole packet that starts at `pos`, seen through the slice that the parser gets. */
  lemma WholePacketSlices(d: seq<byte>, pos: nat, size: nat, busOffset: nat)
    requires pos <= size <= |d| && pos + HEADER_SIZE <= |d|
    requires pos + HEADER_SIZE + DataLen(ReadHeader(d[pos..pos + HEADER_SIZE]).dataLenCode) <= size
    ensures var h := ReadHeader(d[pos..pos + HEADER_SIZE]);
            var n := HEADER_SIZE + DataLen(h.dataLenCode);
            var s := d[pos..size];
            && !Incomplete(s) && PacketSize(s) == n
            && s[..n] == d[pos..pos + n] && s[n..] == d[pos + n..size]
            && PacketFrame(s, busOffset) == CanFrame(h.addr, d[pos + HEADER_SIZE..pos + n], FrameSrc(h, busOffset))
  {
    SliceHeader(d, pos, size);
    var s := d[pos..size];
    var n := PacketSize(s);
    assert s[..n] == d[pos..pos + n];
    assert s[n..] == d[pos + n..size];
    assert s[HEADER_SIZE..n] == d[pos + HEADER_SIZE..pos + n];
  }

  /** `whole` is the parse of a buffer of which the packets before `pos` gave `got`. */
  ghost predicate Consumed(whole: Parsed, d: seq<byte>, pos: nat, size: nat, got: seq<CanFrame>, busOffset: nat)
    requires pos <= size <= |d|
  {
    whole == Prepend(got, Parse(d[pos..size], busOffset))
  }

  lemma ConsumeNothing(d: seq<byte>, size: nat, busOffset: nat)
    requires size <= |d|
    ensures Consumed(Parse(d[..size], busOffset), d, 0, size, [], busOffset)
  {
    assert d[0..size] == d[..size];
    PrependNothing(Parse(d[..size], busOffset));
  }

  lemma ConsumePacket(whole: Parsed, d: seq<byte>, pos: nat, size: nat, got: seq<CanFrame>, busOffset: nat,
                      h: CanHeader, n: nat, sum: byte)
    requires pos + HEADER_SIZE <= pos + n <= size <= |d|
    requires h == ReadHeader(d[pos..pos + HEADER_SIZE]) && n == HEADER_SIZE + DataLen(h.dataLenCode)
    requires sum == Checksum(d[pos..pos + n])
    requires Consumed(whole, d, pos, size, got, busOffset)
    ensures sum != 0 ==> whole == Parsed(got, [], false)
    ensures sum == 0 ==>
              var frame := CanFrame(h.addr, d[pos + HEADER_SIZE..pos + n], FrameSrc(h, busOffset));
              Consumed(whole, d, pos + n, size, got + [frame], busOffset)
  {
    hide Parse, Checksum, ReadHeader;
    WholePacketSlices(d, pos, size, busOffset);
    var s := d[pos..size];
    PrependNothing(whole);
    ParseStep(s, busOffset);
    if sum == 0 {
      PrependAgain(got, PacketFrame(s, busOffset), Parse(s[PacketSize(s)..], busOffset));
    }
  }

  lemma ConsumeRest(whole: Parsed, d: seq<byte>, pos: nat, size: nat, got: seq<CanFrame>, busOffset: nat)
    requires pos <= size <= |d| && Incomplete(d[pos..size])
    requires Consumed(whole, d, pos, size, got, busOffset)
    ensures whole == Parsed(got, d[pos..size], true)
  {
    PrependNothing(whole);
  }

  lemma ParseStep(s: seq<byte>, busOffset: nat)
    requires !Incomplete(s)
    ensures Parse(s, busOffset) ==
              if Checksum(s[..PacketSize(s)]) != 0 then Parsed([], [], false)
              else Prepend([PacketFrame(s, busOffset)], Parse(s[PacketSize(s)..], busOffset))
  {
  }

  class Panda {
    const busOffset: nat
    const receiveBuffer: array<byte>
    var receiveBufferSize: nat
    var commsResets: nat    // number of can_reset_communications requests sent

    ghost predicate Valid()
      reads this, receiveBuffer
    {
      && receiveBuffer.Length == RECV_SIZE + HEADER_SIZE + MAX_DATA
      && receiveBufferSize <= receiveBuffer.Length
      && Incomplete(Held())
    }

    /** Bytes received but not yet parsed. */
    ghost function Held(): seq<byte>
      requires receiveBufferSize <= receiveBuffer.Length
      reads this, receiveBuffer
    {
      receiveBuffer[..receiveBufferSize]
    }

    constructor (busOffset: nat)
      ensures Valid() && Held() == [] && this.busOffset == busOffset && fresh(receiveBuffer)
    {
      this.busOffset := busOffset;
      receiveBuffer := new byte[RECV_SIZE + HEADER_SIZE + MAX_DATA];
      receiveBufferSize := 0;
      commsResets := 0;
    }

    static method CalculateChecksum(data: array<byte>, start: nat, len: nat) returns (checksum: byte)
      requires start + len <= data.Length
      ensures checksum == Checksum(data[start..start + len])
    {
      hide Xor;
      checksum := 0;
      for i := 0 to len
        invariant checksum == Checksum(data[start..start + i])
      {
        assert data[start..start + i + 1][..i] == data[start..start + i];
        checksum := Xor(checksum, data[start + i]);
      }
    }

    static method Memcpy(dst: array<byte>, at: nat, src: seq<byte>)
      requires at + |src| <= dst.Length
      modifies dst
      ensures dst[..] == old(dst[..at]) + src + old(dst[at + |src|..])
    {
      forall i | 0 <= i < |src| { dst[at + i] := src[i]; }
    }

    /** One pass of the packing loop: header with a zero checksum, payload, then the checksum. */
    method PackMessage(sendBuf: array<byte>, pos: nat, m: CanMessage) returns (end: nat)
      requires ForThisPanda(m, busOffset) && ValidLength(|m.dat|)
      requires pos + HEADER_SIZE + |m.dat| <= sendBuf.Length
      modifies sendBuf
      ensures end == pos + HEADER_SIZE + |m.dat|
      ensures sendBuf[..end] == old(sendBuf[..pos]) + MessageBytes(m, busOffset)
      ensures PacketLayout(sendBuf[pos..end], m, busOffset)
    {
      hide PacketLayout, HeaderBytes, MessageHeader, Checksum, ValidLength;
      ghost var before := sendBuf[..pos];
      var header := HeaderBytes(MessageHeader(m, busOffset));
      Memcpy(sendBuf, pos, header);
      assert sendBuf[..pos + HEADER_SIZE] == before + header;
      Memcpy(sendBuf, pos + HEADER_SIZE, m.dat);
      end := pos + HEADER_SIZE + |m.dat|;
      assert sendBuf[..end] == before + header + m.dat;
      assert sendBuf[pos..end] == header + m.dat;
      var checksum := CalculateChecksum(sendBuf, pos, end - pos);
      sendBuf[pos + 5] := checksum;
      assert sendBuf[..end] == before + Seal(header + m.dat);
      MessageBytesLayout(m, busOffset);
      assert sendBuf[pos..end] == MessageBytes(m, busOffset);
    }

    /** pack_can_buffer: `writes` are the buffers handed to the write callback, in order. Their
        concatenation is the stream of this panda's messages; every one stays well inside the
        fixed buffer and only the last may be below the soft limit. */
    method PackCanBuffer(ms: seq<CanMessage>) returns (writes: seq<seq<byte>>)
      requires forall m :: m in ms ==> Sendable(m, busOffset)
      ensures Concat(writes) == StreamBytes(ms, busOffset)
      ensures forall i :: 0 <= i < |writes| ==> 0 < |writes[i]| < USB_TX_SOFT_LIMIT + HEADER_SIZE + MAX_DATA
      ensures forall i :: 0 <= i < |writes| - 1 ==> USB_TX_SOFT_LIMIT <= |writes[i]|
    {
      hide PacketLayout, Checksum, ReadHeader, HeaderBytes, MessageHeader, Seal, MessageBytes, ValidLength, DataLen;
      var sendBuf := new byte[2 * USB_TX_SOFT_LIMIT];
      var pos := 0;
      writes := [];
      for i := 0 to |ms|
        invariant pos < USB_TX_SOFT_LIMIT
        invariant Concat(writes) + sendBuf[..pos] == StreamBytes(ms[..i], busOffset)
        invariant forall k :: 0 <= k < |writes| ==>
                    USB_TX_SOFT_LIMIT <= |writes[k]| < USB_TX_SOFT_LIMIT + HEADER_SIZE + MAX_DATA
      {
        var m := ms[i];
        assert ms[..i + 1] == ms[..i] + [m];
        assert Sendable(m, busOffset);
        StreamAppend(ms[..i], m, busOffset);
        if m.src < busOffset || m.src >= busOffset + PANDA_BUS_OFFSET {
          continue;
        }
        ghost var sent, buffered := Concat(writes), sendBuf[..pos];
        pos := PackMessage(sendBuf, pos, m);
        assert sent + sendBuf[..pos] == (sent + buffered) + MessageBytes(m, busOffset);
        if pos >= USB_TX_SOFT_LIMIT {
          ConcatAppend(writes, sendBuf[..pos]);
          writes := writes + [sendBuf[..pos]];
          pos := 0;
        }
      }
      assert ms[..|ms|] == ms;
      if pos > 0 {
        ConcatAppend(writes, sendBuf[..pos]);
        writes := writes + [sendBuf[..pos]];
      }
    }

    /** The can_frame filled in from one packet. */
    method ReadFrame(data: array<byte>, pos: nat, header: CanHeader) returns (frame: CanFrame)
      requires header.Fits() && pos + HEADER_SIZE + DataLen(header.dataLenCode) <= data.Length
      ensures frame == CanFrame(header.addr, data[pos + HEADER_SIZE..pos + HEADER_SIZE + DataLen(header.dataLenCode)],
                                FrameSrc(header, busOffset))
    {
      var src := header.bus + busOffset;
      if header.rejected {
        src := src + CAN_REJECTED_BUS_OFFSET;
      }
      if header.returned {
        src := src + CAN_RETURNED_BUS_OFFSET;
      }
      frame := CanFrame(header.addr, data[pos + HEADER_SIZE..pos + HEADER_SIZE + DataLen(header.dataLenCode)], src);
    }

    /** The parsing loop: how far it gets, what it delivers, whether a checksum failed. The loop
        bound is computed in unsigned 64-bit arithmetic, so for a buffer shorter than a header it
        wraps to a huge value and one header is read from whatever bytes lie there; the contract
        holds for every content of those bytes. */
    method ConsumePackets(data: array<byte>, size: nat, outVec: seq<CanFrame>)
      returns (ok: bool, pos: nat, out: seq<CanFrame>)
      requires size <= data.Length && HEADER_SIZE <= data.Length < SIZE_T_MODULUS
      ensures pos <= size
      ensures var p := Parse(data[..size], busOffset);
              p == Parsed(p.frames, if ok then data[pos..size] else [], ok) && out == outVec + p.frames
    {
      hide Parse, Checksum, ReadHeader;
      pos := 0;
      var bound := SizeTMinus(size, HEADER_SIZE);
      ghost var d, got := data[..], [];
      ghost var whole := Parse(d[..size], busOffset);
      assert d[..size] == data[..size];
      ConsumeNothing(d, size, busOffset);
      out := outVec;
      while pos <= bound
        invariant pos <= size && out == outVec + got
        invariant size < HEADER_SIZE ==> pos == 0
        invariant Consumed(whole, d, pos, size, got, busOffset)
        decreases size - pos
      {
        assert data[pos..pos + HEADER_SIZE] == d[pos..pos + HEADER_SIZE];
        var header := ReadHeader(data[pos..pos + HEADER_SIZE]);
        var packetSize := HEADER_SIZE + DataLen(header.dataLenCode);
        if pos + packetSize > size {
          break;
        }
        assert data[pos..pos + packetSize] == d[pos..pos + packetSize];
        var checksum := CalculateChecksum(data, pos, packetSize);
        ConsumePacket(whole, d, pos, size, got, busOffset, header, packetSize, checksum);
        if checksum != 0 {
          return false, pos, out;
        }
        var frame := ReadFrame(data, pos, header);
        assert data[pos + HEADER_SIZE..pos + packetSize] == d[pos + HEADER_SIZE..pos + packetSize];
        got := got + [frame];
        out := out + [frame];
        pos := pos + packetSize;
      }
      if pos + HEADER_SIZE <= |d| {
        ShortPacket(d, pos, size);
      }
      ConsumeRest(whole, d, pos, size, got, busOffset);
      assert data[pos..size] == d[pos..size];
      ok := true;
    }

    /** unpack_can_buffer: parse in place, then move the unfinished bytes to the front. */
    method UnpackCanBuffer(data: array<byte>, size: nat, outVec: seq<CanFrame>)
      returns (ok: bool, newSize: nat, out: seq<CanFrame>)
      requires size <= data.Length && HEADER_SIZE <= data.Length < SIZE_T_MODULUS
      modifies data, this`commsResets
      ensures var p := Parse(old(data[..size]), busOffset);
              && ok == p.ok
              && out == outVec + p.frames
              && newSize == |p.rest| <= data.Length
              && data[..newSize] == p.rest
              && commsResets == old(commsResets) + if p.ok then 0 else 1
    {
      var pos;
      ok, pos, out := ConsumePackets(data, size, outVec);
      if !ok {
        commsResets := commsResets + 1;
        return false, 0, out;
      }
      ghost var rest := data[pos..size];
      forall i | 0 <= i < size - pos { data[i] := data[pos + i]; }
      newSize := size - pos;
      assert data[..newSize] == rest;
    }

    /** can_receive, for one bulk read that delivered `incoming` (empty when nothing or an
        error came back). Nothing is consumed while the link is unhealthy. The precondition is
        the capacity requested from the link; the room for it is guaranteed by Valid. */
    method CanReceive(incoming: seq<byte>, commsHealthy: bool, outVec: seq<CanFrame>)
      returns (ok: bool, out: seq<CanFrame>)
      requires Valid() && |incoming| <= RECV_SIZE
      modifies receiveBuffer, this`receiveBufferSize, this`commsResets
      ensures Valid()
      ensures !commsHealthy ==> !ok && out == outVec && Held() == old(Held()) && commsResets == old(commsResets)
      ensures commsHealthy ==>
                var p := Parse(old(Held()) + incoming, busOffset);
                && ok == p.ok
                && out == outVec + p.frames
                && Held() == p.rest
                && commsResets == old(commsResets) + if p.ok then 0 else 1
    {
      out := outVec;
      assert receiveBufferSize + RECV_SIZE <= receiveBuffer.Length;
      ghost var held := Held();
      Memcpy(receiveBuffer, receiveBufferSize, incoming);
      assert Held() == held;
      if !commsHealthy {
        return false, out;
      }
      ok := true;
      if |incoming| > 0 {
        receiveBufferSize := receiveBufferSize + |incoming|;
        assert Held() == held + incoming;
        RestIsIncomplete(held + incoming, busOffset);
        ok, receiveBufferSize, out := UnpackCanBuffer(receiveBuffer, receiveBufferSize, out);
      } else {
        assert held + incoming == held;
        PrependNothing(Parse(held, busOffset));
      }
    }

    /** A session of reads, whatever their sizes; what comes over an unhealthy link is dropped. */
    method ReceiveAll(readings: seq<Reading>) returns (allOk: bool, out: seq<CanFrame>)
      requires Valid() && forall i :: 0 <= i < |readings| ==> |readings[i].bytes| <= RECV_SIZE
      modifies receiveBuffer, this`receiveBufferSize, this`commsResets
      ensures Valid()
      ensures var fed := Feed(old(Held()), Arrived(readings), busOffset);
              out == fed.frames && Held() == fed.rest && allOk == (fed.ok && AllHealthy(readings))
    {
      hide Parse, Checksum, ReadHeader;
      allOk, out := true, [];
      ghost var fedOk := true;
      ghost var whole := Feed(Held(), Arrived(readings), busOffset);
      for i := 0 to |readings|
        invariant Valid()
        invariant Joined(Parsed(out, [], fedOk), Feed(Held(), Arrived(readings[i..]), busOffset)) == whole
        invariant allOk == (fedOk && AllHealthy(readings[..i]))
      {
        ghost var soFar, later := out, readings[i..];
        assert later[0] == readings[i] && later[1..] == readings[i + 1..];
        assert readings[..i + 1][..i] == readings[..i];
        ArrivedNext(later);
        var ok;
        ok, out := CanReceive(readings[i].bytes, readings[i].healthy, out);
        allOk := allOk && ok;
        if readings[i].healthy {
          fedOk := fedOk && ok;
          JoinAgain(soFar, out[|soFar|..], Feed(Held(), Arrived(readings[i + 1..]), busOffset).frames);
        }
      }
      assert readings[..|readings|] == readings;
    }
  }

  /** One read: the bytes that came, and whether the link was healthy then. */
  datatype Reading = Reading(bytes: seq<byte>, healthy: bool)

  function Arrived(readings: seq<Reading>): seq<seq<byte>> {
    if readings == [] then []
    else (if readings[0].healthy then [readings[0].bytes] else []) + Arrived(readings[1..])
  }

  lemma ArrivedNext(readings: seq<Reading>)
    requires readings != []
    ensures var all, rest := Arrived(readings), Arrived(readings[1..]);
            if readings[0].healthy then all != [] && all[0] == readings[0].bytes && all[1..] == rest else all == rest
  {
    if readings[0].healthy {
      assert ([readings[0].bytes] + Arrived(readings[1..]))[1..] == Arrived(readings[1..]);
    } else {
      assert [] + Arrived(readings[1..]) == Arrived(readings[1..]);
    }
  }

  predicate AllHealthy(readings: seq<Reading>) {
    readings == [] || (AllHealthy(readings[..|readings| - 1]) && readings[|readings| - 1].healthy)
  }

  function Joined(head: Parsed, tail: Parsed): Parsed {
    Parsed(head.frames + tail.frames, tail.rest, head.ok && tail.ok)
  }

  lemma JoinAgain(a: seq<CanFrame>, b: seq<CanFrame>, c: seq<CanFrame>)
    ensures (a + b) + c == a + (b + c)
  {
  }

  lemma PrependNothing(p: Parsed)
    ensures Prepend([], p) == p
    ensures forall fs: seq<CanFrame> :: fs + [] == fs
  {
    assert [] + p.frames == p.frames;
  }

  lemma PrependAgain(got: seq<CanFrame>, frame: CanFrame, p: Parsed)
    ensures Prepend(got, Prepend([frame], p)) == Prepend(got + [frame], p)
  {
    assert got + ([frame] + p.frames) == (got + [frame]) + p.frames;
  }
}
