/** The data frame of routing/custom-routing.c: build_data_header,
    packing_data_packet and process_data_packet.
    Layout: byte 0 holds the packet kind in bit 7 and, by intent, the high
    bits of len_topic (never actually stored); byte 1 the low byte of
    len_topic; bytes 2-3 len_data, big-endian; then the topic bytes and the
    data bytes. */
module DataCodec {
  import opened Link
  import opened RoutingDefs

  /** build_data_header: a DATA header whose len_topic keeps its low 15 bits
      (`len_topic & 0x7FFF`), over the caller's topic and data. */
  function BuildDataHeader(lenTopic: uint16, lenData: uint16, topic: seq<byte>, data: seq<byte>): (p: DataPacket)
    ensures p.header.kind == DATA
    ensures p.header.lenTopic < 0x8000
    ensures lenTopic < 0x8000 ==> p.header.lenTopic == lenTopic
    ensures lenTopic >= 0x8000 ==> p.header.lenTopic == lenTopic - 0x8000
    ensures p.header.lenData == lenData
    ensures p.topic == topic && p.data == data
  {
    DataPacket(DataHeader(DATA, lenTopic % 0x8000, lenData), topic, data)
  }

  /** The topic and data buffers hold at least the bytes the header declares
      (memcpy reads that many). */
  predicate Packable(p: DataPacket)
  {
    |p.topic| >= p.header.lenTopic && |p.data| >= p.header.lenData
  }

  /** Number of bytes packing_data_packet writes. */
  function FrameLength(h: DataHeader): nat
  {
    4 + h.lenTopic + h.lenData
  }

  /** The byte packing_data_packet leaves in data[0]: the kind shifted to
      bit 7, or-ed with `(len_topic & 0x7F) >> 8`, meant to be the high bits
      of len_topic. */
  function FirstByte(kind: byte, lenTopic: uint16): byte
  {
    (kind << 7) | ((lenTopic % 0x80 / 256) as byte)
  }

  /** The four header bytes packing_data_packet writes at data[0..4]. */
  function HeaderBytes(h: DataHeader): seq<byte>
  {
    [FirstByte(h.kind, h.lenTopic), (h.lenTopic % 256) as byte,
     (h.lenData / 256) as byte, (h.lenData % 256) as byte]
  }

  /** Everything packing_data_packet writes: the header, then len_topic
      bytes of topic, then len_data bytes of data. */
  function DataFrame(p: DataPacket): seq<byte>
    requires Packable(p)
  {
    HeaderBytes(p.header) + p.topic[..p.header.lenTopic] + p.data[..p.header.lenData]
  }

  /** memcpy(dst + offset, src, n). */
  method Memcpy(dst: array<byte>, offset: nat, src: seq<byte>, n: nat)
    requires offset + n <= dst.Length && n <= |src|
    modifies dst
    ensures dst[..] == old(dst[..offset]) + src[..n] + old(dst[offset + n..])
  {
    forall i | offset <= i < offset + n {
      dst[i] := src[i - offset];
    }
  }

  /** The header part of packing_data_packet: data[0..4]. */
  method WriteDataHeader(h: DataHeader, buf: array<byte>)
    requires buf.Length >= 4
    modifies buf
    ensures buf[..4] == HeaderBytes(h)
    ensures buf[4..] == old(buf[4..])
  {
    var lt, ld := h.lenTopic, h.lenData;
    buf[0] := 0;
    buf[0] := h.kind << 7;
    buf[0] := buf[0] | ((lt % 0x80 / 256) as byte);
    buf[1] := (lt % 256) as byte;
    buf[2] := (ld / 256) as byte;
    buf[3] := (ld % 256) as byte;
  }

  /** packing_data_packet: fills the first FrameLength bytes of the caller's
      buffer with the frame and leaves the rest of it alone. */
  method PackDataPacket(p: DataPacket, buf: array<byte>)
    requires Packable(p)
    requires buf.Length >= FrameLength(p.header)
    modifies buf
    ensures buf[..FrameLength(p.header)] == DataFrame(p)
    ensures buf[FrameLength(p.header)..] == old(buf[FrameLength(p.header)..])
  {
    var lt: nat, ld: nat := p.header.lenTopic, p.header.lenData;
    WriteDataHeader(p.header, buf);
    ghost var header := buf[..4];
    Memcpy(buf, 4, p.topic, lt);
    assert buf[..4 + lt] == header + p.topic[..lt];
    Memcpy(buf, 4 + lt, p.data, ld);
    assert buf[..4 + lt + ld] == header + p.topic[..lt] + p.data[..ld];
  }

  /** The header process_data_packet extracts from the first four bytes:
      `(b0 & 0x7F) << 8 | b1` and `b2 << 8 | b3`, where or-ing a byte into a
      value shifted left by 8 is adding it. */
  function DecodeDataHeader(input: seq<byte>): (h: DataHeader)
    requires |input| >= 4
    ensures h.kind <= 1 && (h.kind == 1 <==> input[0] & 0x80 != 0)
    ensures h.lenTopic < 0x8000
  {
    DataHeader(input[0] >> 7,
               (input[0] & 0x7F) as int * 256 + input[1] as int,
               input[2] as int * 256 + input[3] as int)
  }

  /** The buffer holds the four header bytes and every byte they declare.
      process_data_packet never checks this: it copies blindly. */
  predicate FrameComplete(input: seq<byte>)
  {
    |input| >= 4 && |input| >= FrameLength(DecodeDataHeader(input))
  }

  /** process_data_packet's result for a non-empty buffer: the header, and
      copies of the declared topic and data bytes, each followed by a NUL. */
  function DecodeDataFrame(input: seq<byte>): (p: DataPacket)
    requires FrameComplete(input)
    ensures p.header == DecodeDataHeader(input)
    ensures |p.topic| == p.header.lenTopic + 1 && p.topic[p.header.lenTopic] == 0
    ensures |p.data| == p.header.lenData + 1 && p.data[p.header.lenData] == 0
    ensures p.topic[..p.header.lenTopic] == input[4..4 + p.header.lenTopic]
    ensures p.data[..p.header.lenData] == input[4 + p.header.lenTopic..FrameLength(p.header)]
  {
    var h := DecodeDataHeader(input);
    var lt: nat := h.lenTopic;
    DataPacket(h, input[4..4 + lt] + [0], input[4 + lt..4 + lt + h.lenData] + [0])
  }

  /** process_data_packet: an empty buffer leaves the out-parameter as it
      was; otherwise it is replaced by the decoded packet. */
  method ProcessDataPacket(input: seq<byte>, len: uint16, prior: DataPacket) returns (p: DataPacket)
    requires |input| == len
    requires len != 0 ==> FrameComplete(input)
    ensures len == 0 ==> p == prior
    ensures len != 0 ==> p == DecodeDataFrame(input)
  {
    if len == 0 {
      return prior;
    }
    p := DecodeDataFrame(input);
  }

  /** Layout of a packed frame: its length, the kind bit, the seven zero
      bits after it, len_topic modulo 256 in byte 1, len_data big-endian in
      bytes 2-3, the topic at offset 4 and the data at offset 4 + len_topic. */
  lemma DataFrameLayout(p: DataPacket)
    requires Packable(p)
    ensures |DataFrame(p)| == FrameLength(p.header)
    ensures DataFrame(p)[0] == p.header.kind << 7
    ensures DataFrame(p)[0] & 0x7F == 0
    ensures DataFrame(p)[1] as int == p.header.lenTopic % 256
    ensures DataFrame(p)[2] as int * 256 + DataFrame(p)[3] as int == p.header.lenData
    ensures DataFrame(p)[4..4 + p.header.lenTopic] == p.topic[..p.header.lenTopic]
    ensures DataFrame(p)[4 + p.header.lenTopic..] == p.data[..p.header.lenData]
  {
    var h := p.header;
    var f := DataFrame(p);
    FramePayload(p);
    assert f[..4] == HeaderBytes(h);
    KindBit(h.kind);
    ByteValue(h.lenTopic % 256);
    ByteValue(h.lenData / 256);
    ByteValue(h.lenData % 256);
  }

  /** Whatever len_topic was packed, the parser reads the packet kind's low
      bit, len_topic modulo 256 and len_data unchanged. */
  lemma PackedHeaderDecodes(p: DataPacket)
    requires Packable(p)
    ensures DecodeDataHeader(DataFrame(p)) ==
            DataHeader(p.header.kind & 1, p.header.lenTopic % 256, p.header.lenData)
  {
    var h := p.header;
    var f := DataFrame(p);
    assert f[..4] == HeaderBytes(h);
    KindBit(h.kind);
    ByteValue(h.lenTopic % 256);
    ByteValue(h.lenData / 256);
    ByteValue(h.lenData % 256);
  }

  /** Round trip: for a one-bit kind and len_topic < 256 the parser returns
      the packed header and exactly the packed topic and data bytes, each
      followed by a NUL. */
  lemma DataRoundTrip(p: DataPacket)
    requires Packable(p)
    requires p.header.kind <= 1 && p.header.lenTopic < 256
    ensures FrameComplete(DataFrame(p))
    ensures DecodeDataFrame(DataFrame(p)) ==
            DataPacket(p.header, p.topic[..p.header.lenTopic] + [0], p.data[..p.header.lenData] + [0])
  {
    var f := DataFrame(p);
    var lt: nat, ld: nat := p.header.lenTopic, p.header.lenData;
    HeaderRoundTrip(p);
    FramePayload(p);
    assert FrameComplete(f);
    var d := DecodeDataFrame(f);
    assert d.topic == p.topic[..lt] + [0] by {
      assert d.topic == d.topic[..lt] + [0];
    }
    assert d.data == p.data[..ld] + [0] by {
      assert f[4 + lt..FrameLength(p.header)] == f[4 + lt..];
      assert d.data == d.data[..ld] + [0];
    }
  }

  /** For a one-bit kind and len_topic < 256 the packed header decodes to
      itself. */
  lemma HeaderRoundTrip(p: DataPacket)
    requires Packable(p)
    requires p.header.kind <= 1 && p.header.lenTopic < 256
    ensures DecodeDataHeader(DataFrame(p)) == p.header
  {
    PackedHeaderDecodes(p);
    OneBit(p.header.kind);
  }

  /** Where the topic and the data sit in a packed frame. */
  lemma FramePayload(p: DataPacket)
    requires Packable(p)
    ensures |DataFrame(p)| == FrameLength(p.header)
    ensures DataFrame(p)[4..4 + p.header.lenTopic] == p.topic[..p.header.lenTopic]
    ensures DataFrame(p)[4 + p.header.lenTopic..] == p.data[..p.header.lenData]
  {
  }

  // Bit-level facts, each proved on bare values so that the solver never
  // meets them next to sequences and datatypes.

  /** Narrowing a value below 256 to a byte keeps it; the split into
      quarters keeps each solver query small. */
  lemma ByteValue(x: int)
    requires 0 <= x < 256
    ensures (x as byte) as int == x
  {
    if x < 128 {
      if x < 64 {} else {}
    } else {
      if x < 192 {} else {}
    }
  }

  lemma OneBit(kind: byte)
    ensures kind <= 1 ==> kind & 1 == kind
  {
  }

  lemma KindBit(kind: byte)
    ensures (kind << 7) | (0 as byte) == kind << 7
    ensures (kind << 7) & 0x7F == 0
    ensures (kind << 7) >> 7 == kind & 1
  {
  }
}
