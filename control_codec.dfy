/** The one-byte control header of routing/custom-routing.c:
    build_control_header, packing_control_packet and process_control_header.
    The packer shifts whole uint8 codes into the byte (type at bit 7, role at
    bit 6, response kind at bit 4); the parser reads back a single bit at
    each of those positions. */
module ControlCodec {
  import opened Link
  import opened RoutingDefs

  /** build_control_header: a CONTROL header carrying the given role and
      response kind. */
  function BuildControlHeader(nodeType: byte, responseType: byte): (h: ControlHeader)
    ensures h.kind == CONTROL
    ensures h.nodeType == nodeType && h.responseType == responseType
  {
    ControlHeader(CONTROL, nodeType, responseType)
  }

  /** The byte packing_control_packet stores in data[0]. */
  function HeaderByte(h: ControlHeader): byte
  {
    (h.kind << 7) | (h.nodeType << 6) | (h.responseType << 4)
  }

  /** packing_control_packet: writes the header byte into data[0] by three
      successive stores, then the packet's data field into data[1]. That
      field is a pointer truncated to a byte; `dataByte` is its value. */
  method PackControlPacket(h: ControlHeader, dataByte: byte, buf: array<byte>)
    requires buf.Length >= 2
    modifies buf
    ensures buf[0] == HeaderByte(h)
    ensures buf[1] == dataByte
    ensures buf[2..] == old(buf[2..])
  {
    buf[0] := h.kind << 7;
    buf[0] := buf[0] | (h.nodeType << 6);
    buf[0] := buf[0] | (h.responseType << 4);
    buf[1] := dataByte;
  }

  /** The field extraction of process_control_header: bit 7, bit 6 and bit 4. */
  function DecodeControlByte(b: byte): (h: ControlHeader)
    ensures h.kind <= 1 && h.nodeType <= 1 && h.responseType <= 1
    ensures h.kind == 1 <==> b & 0x80 != 0
    ensures h.nodeType == 1 <==> b & 0x40 != 0
    ensures h.responseType == 1 <==> b & 0x10 != 0
  {
    ControlHeader(b >> 7, (b >> 6) & 1, (b >> 4) & 1)
  }

  /** process_control_header: an empty buffer leaves the out-parameter as it
      was; otherwise the header is decoded from the first byte. */
  method ProcessControlHeader(data: seq<byte>, len: uint16, prior: ControlHeader) returns (h: ControlHeader)
    requires |data| == len
    ensures len == 0 ==> h == prior
    ensures len != 0 ==> h == DecodeControlByte(data[0])
    ensures len != 0 ==> h.kind <= 1 && h.nodeType <= 1 && h.responseType <= 1
  {
    if len == 0 {
      return prior;
    }
    var header := data[0];
    h := ControlHeader(header >> 7, (header >> 6) & 1, (header >> 4) & 1);
  }

  /** Round trip: with one-bit codes the parser returns exactly the packed
      kind, role and response kind. */
  lemma ControlRoundTrip(h: ControlHeader)
    requires h.kind <= 1 && h.nodeType <= 1 && h.responseType <= 1
    ensures DecodeControlByte(HeaderByte(h)) == h
  {
  }

  /** What the parser makes of two-bit codes: the high bit of the role lands
      in the packet-kind bit, and of each code only the low bit survives. */
  lemma TwoBitCodesMisread(h: ControlHeader)
    requires h.kind <= 1 && h.nodeType < 4 && h.responseType < 4
    ensures DecodeControlByte(HeaderByte(h)) ==
            ControlHeader(h.kind | (h.nodeType >> 1), h.nodeType & 1, h.responseType & 1)
  {
  }

  /** A control header sent with the role GATEWAY is read back as a DATA
      packet whose role bit is NODE; a SETUP_ACK is read back as a SETUP. */
  lemma GatewayHeaderReadAsData(responseType: byte)
    requires responseType < 4
    ensures DecodeControlByte(HeaderByte(BuildControlHeader(GATEWAY, responseType))).kind == DATA
    ensures DecodeControlByte(HeaderByte(BuildControlHeader(GATEWAY, responseType))).nodeType == NODE
    ensures DecodeControlByte(HeaderByte(BuildControlHeader(NODE, SETUP_ACK))).responseType == SETUP
  {
    TwoBitCodesMisread(BuildControlHeader(GATEWAY, responseType));
    TwoBitCodesMisread(BuildControlHeader(NODE, SETUP_ACK));
  }

  /** The parser never reports the role GATEWAY. */
  lemma GatewayRoleNeverDecoded(b: byte)
    ensures DecodeControlByte(b).nodeType != GATEWAY
  {
  }
}
