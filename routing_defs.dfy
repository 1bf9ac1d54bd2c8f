/** Constants, records and initial global values of routing/custom-routing.h. */
module RoutingDefs {
  import opened Link

  /** Packet kinds, stored in bit 7 of the first byte. */
  const DATA: byte := 1
  const CONTROL: byte := 0

  /** Node roles: two-bit codes. */
  const GATEWAY: byte := 2      // 0b10
  const SUB_GATEWAY: byte := 1  // 0b01
  const NODE: byte := 0         // 0b00

  /** Control response kinds: two-bit codes. */
  const SETUP: byte := 0        // 0b00
  const RESPONSE: byte := 1     // 0b01
  const SETUP_ACK: byte := 2    // 0b10

  /** control_header_t: packet kind, role of the sender, response kind. */
  datatype ControlHeader = ControlHeader(kind: byte, nodeType: byte, responseType: byte)

  /** data_header_t: packet kind and the two uint16 lengths. */
  datatype DataHeader = DataHeader(kind: byte, lenTopic: uint16, lenData: uint16)

  /** data_packet_t: a header and the bytes behind the topic and data pointers. */
  datatype DataPacket = DataPacket(header: DataHeader, topic: seq<byte>, data: seq<byte>)

  /** The parent record (parent_t) as check_parent_node and set_parent keep it:
      its address and the rssi it was heard with. The `type` field of parent_t
      is never written; the parent's role lives in the global type_parent. */
  datatype Parent = Parent(addr: LinkAddr, rssi: int8)

  /** Initial values of the module globals `setup` and `type_parent`. */
  const INITIAL_SETUP: byte := 0
  const INITIAL_TYPE_PARENT: byte := 0

  /** null_addr: the all-zero address. */
  const NullAddr: LinkAddr := [0, 0, 0, 0, 0, 0, 0, 0]

  /** The packet kinds, the role codes and the response codes are each
      pairwise distinct, and the two packet kinds are the two values of one bit. */
  lemma CodesDistinct()
    ensures DATA == 1 && CONTROL == 0
    ensures GATEWAY != SUB_GATEWAY && GATEWAY != NODE && SUB_GATEWAY != NODE
    ensures SETUP != RESPONSE && SETUP != SETUP_ACK && RESPONSE != SETUP_ACK
    ensures GATEWAY < 4 && SUB_GATEWAY < 4 && NODE < 4
    ensures SETUP < 4 && RESPONSE < 4 && SETUP_ACK < 4
  {
  }

  /** Before any packet is seen the node is not set up, and null_addr is
      eight zero bytes. */
  lemma InitialGlobals()
    ensures INITIAL_SETUP == 0 && INITIAL_TYPE_PARENT == 0
    ensures |NullAddr| == 8
    ensures forall i :: 0 <= i < |NullAddr| ==> NullAddr[i] == 0
  {
  }
}
