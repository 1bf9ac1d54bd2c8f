/** The prototype gateway of firstnetwork-test/gateway.c. It keeps no routing
    state: each entry point only decides which frames to put on the air. */
module ProtoGateway {
  import opened Link
  import opened ProtoDefs

  /** control_packet_send: the header byte is CONTROL << 7 | GATEWAY << 6 |
      response_type << 4 and the frame is the whole two-byte
      control_packet_t, whose data byte is never set. With a one-bit response
      kind bit 7 is clear and bit 6 set, so a receiver reads CONTROL from GATEWAY. */
  method ControlPacketSend(dest: Option<LinkAddr>, responseType: byte, stackByte: byte) returns (frame: Frame)
    ensures frame.dest == dest && |frame.bytes| == 2 && frame.bytes[1] == stackByte
    ensures frame.bytes[0] == ProtoHeaderByte(CONTROL, GATEWAY, responseType)
    ensures responseType <= 1 ==> frame.bytes[0] & 0x80 == 0 && frame.bytes[0] & 0x40 != 0
    ensures responseType <= 1 ==> ProtoDecode(frame.bytes[0]) == ProtoHeader(CONTROL, GATEWAY, responseType)
  {
    var header: byte := CONTROL << 7;
    header := header | (GATEWAY << 6);
    header := header | (responseType << 4);
    frame := Frame(ControlPacketBytes(ControlPacket(header, stackByte)), dest);
  }

  /** input_callback: an empty packet and a DATA packet produce nothing;
      every control packet, whatever its response kind, is answered with a
      RESPONSE to `src`. */
  method InputCallback(data: seq<byte>, len: uint16, src: LinkAddr, stackByte: byte) returns (sent: seq<Frame>)
    requires |data| == len
    ensures len == 0 || data[0] >> 7 == DATA ==> sent == []
    ensures len != 0 && data[0] >> 7 == CONTROL ==>
              |sent| == 1 && sent[0].dest == Some(src) &&
              sent[0].bytes == [ProtoHeaderByte(CONTROL, GATEWAY, RESPONSE), stackByte] &&
              ProtoDecode(sent[0].bytes[0]) == ProtoHeader(CONTROL, GATEWAY, RESPONSE)
  {
    sent := [];
    if len == 0 {
      return;
    }
    var packetType := data[0] >> 7;
    if packetType == DATA {
      // received data: logged only
    } else if packetType == CONTROL {
      var reply := ControlPacketSend(Some(src), RESPONSE, stackByte);
      sent := [reply];
    }
  }

  /** init_gateway, run once at start: a single SETUP broadcast. */
  method InitGateway(stackByte: byte) returns (sent: seq<Frame>)
    ensures |sent| == 1 && sent[0].dest == None && |sent[0].bytes| == 2
    ensures ProtoDecode(sent[0].bytes[0]) == ProtoHeader(CONTROL, GATEWAY, SETUP)
  {
    var setup := ControlPacketSend(None, SETUP, stackByte);
    sent := [setup];
  }
}
