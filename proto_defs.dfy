/** The one-bit constants and the records of firstnetwork-test/custom-routing.h,
    and the control header byte the prototype's node.c and gateway.c build
    and parse. */
module ProtoDefs {
  import opened Link

  const DATA: byte := 1
  const CONTROL: byte := 0

  const GATEWAY: byte := 1
  const NODE: byte := 0

  const SETUP: byte := 0     // 0b0
  const RESPONSE: byte := 1  // 0b1

  /** parent_t: the parent's address, the rssi it was heard with and its role.
      The source keeps a pointer to the address; the model keeps the address. */
  datatype ProtoParent = ProtoParent(addr: LinkAddr, rssi: int8, kind: byte)

  /** control_packet_t: the header byte and one data byte. */
  datatype ControlPacket = ControlPacket(header: byte, data: byte)

  /** The bytes of a control_packet_t as sent: sizeof(control_packet_t) is 2. */
  function ControlPacketBytes(cp: ControlPacket): (r: seq<byte>)
    ensures |r| == 2 && r[0] == cp.header && r[1] == cp.data
  {
    [cp.header, cp.data]
  }

  /** The header byte: packet kind at bit 7, role at bit 6, response kind at bit 4. */
  function ProtoHeaderByte(kind: byte, role: byte, responseType: byte): byte
  {
    (kind << 7) | (role << 6) | (responseType << 4)
  }

  /** The fields node.c's input_callback extracts from a header byte. */
  datatype ProtoHeader = ProtoHeader(kind: byte, nodeType: byte, responseType: byte)

  /** Bit 7 as the packet kind, bit 6 as the role, bit 4 as the response kind. */
  function ProtoDecode(b: byte): (h: ProtoHeader)
    ensures h.kind <= 1 && h.nodeType <= 1 && h.responseType <= 1
    ensures h.kind == 1 <==> b & 0x80 != 0
    ensures h.nodeType == 1 <==> b & 0x40 != 0
    ensures h.responseType == 1 <==> b & 0x10 != 0
  {
    ProtoHeader(b >> 7, (b >> 6) & 1, (b >> 4) & 1)
  }

  /** Every code fits the one-bit field it is decoded from with `& 0b1`. */
  lemma CodesFitOneBit()
    ensures DATA & 1 == DATA && CONTROL & 1 == CONTROL && DATA != CONTROL
    ensures GATEWAY & 1 == GATEWAY && NODE & 1 == NODE && GATEWAY != NODE
    ensures SETUP & 1 == SETUP && RESPONSE & 1 == RESPONSE && SETUP != RESPONSE
  {
  }

  /** Encoding and then extracting bits 7, 6 and 4 is the identity on
      one-bit (kind, role, response kind). */
  lemma ProtoRoundTrip(kind: byte, role: byte, responseType: byte)
    requires kind <= 1 && role <= 1 && responseType <= 1
    ensures ProtoDecode(ProtoHeaderByte(kind, role, responseType)) == ProtoHeader(kind, role, responseType)
  {
  }
}
