/** The prototype node of firstnetwork-test/node.c: its globals `setup` and
    `parent_addr`, check_parent, control_packet_send and the dispatch in
    input_callback. */
module ProtoNode {
  import opened Link
  import opened ProtoDefs

  /** check_parent on the parent record. `pointerAbove` is the outcome of
      comparing the current parent's address pointer with the pointer to the
      candidate's stack copy of `src`, which depends on memory layout. */
  function CheckParentRule(current: Option<ProtoParent>, candidate: ProtoParent, pointerAbove: bool): Option<ProtoParent>
  {
    if current.None? then Some(candidate)
    else if pointerAbove then Some(candidate)
    else if current.value.kind == candidate.kind && current.value.rssi < candidate.rssi then Some(candidate)
    else current
  }

  /** With no parent the candidate is adopted; with one, a candidate of the
      same role and strictly higher rssi replaces it; when neither rule nor
      the pointer test applies, the parent is kept. */
  lemma CheckParentCases(current: Option<ProtoParent>, candidate: ProtoParent, pointerAbove: bool)
    ensures current.None? ==> CheckParentRule(current, candidate, pointerAbove) == Some(candidate)
    ensures current.Some? && current.value.kind == candidate.kind && current.value.rssi < candidate.rssi ==>
              CheckParentRule(current, candidate, pointerAbove) == Some(candidate)
    ensures current.Some? && !pointerAbove &&
            !(current.value.kind == candidate.kind && current.value.rssi < candidate.rssi) ==>
              CheckParentRule(current, candidate, pointerAbove) == current
  {
  }

  /** The control frame control_packet_send puts on the air: the header byte
      for a NODE and the uninitialised data byte of control_packet_t. */
  function NodeControlFrame(responseType: byte, dest: Option<LinkAddr>, stackByte: byte): Frame
  {
    Frame(ControlPacketBytes(ControlPacket(ProtoHeaderByte(CONTROL, NODE, responseType), stackByte)), dest)
  }

  class Node {
    var setup: byte
    var parent: Option<ProtoParent>
    var outbox: seq<Frame>

    /** `setup` is 1 exactly when a parent is recorded. */
    ghost predicate Valid()
      reads this
    {
      setup == if parent.Some? then 1 else 0
    }

    constructor ()
      ensures Valid()
      ensures setup == 0 && parent == None && outbox == []
    {
      setup := 0;
      parent := None;
      outbox := [];
    }

    /** check_parent: with no parent the candidate is stored and setup set
      to 1; otherwise the parent is replaced as CheckParentRule says. */
    method CheckParent(src: LinkAddr, nodeType: byte, rssi: int8, pointerAbove: bool)
      requires Valid()
      modifies this
      ensures Valid()
      ensures parent == CheckParentRule(old(parent), ProtoParent(src, rssi, nodeType), pointerAbove)
      ensures setup == (if old(parent).None? then 1 else old(setup))
      ensures outbox == old(outbox)
    {
      var newParent := ProtoParent(src, rssi, nodeType);
      if parent.None? {
        setup := 1;
        parent := Some(newParent);
        return;
      }
      if pointerAbove {
        parent := Some(newParent);
        return;
      }
      if parent.value.kind == newParent.kind && parent.value.rssi < newParent.rssi {
        parent := Some(newParent);
        return;
      }
    }

    /** control_packet_send: the header byte is built by successive or-ing of
      CONTROL << 7, NODE << 6 and response_type << 4; the frame is the whole
      two-byte control_packet_t, whose data byte is never set. */
    method ControlPacketSend(dest: Option<LinkAddr>, responseType: byte, stackByte: byte)
      modifies this`outbox
      ensures outbox == old(outbox) + [NodeControlFrame(responseType, dest, stackByte)]
      ensures |outbox[|outbox| - 1].bytes| == 2
    {
      var header: byte := CONTROL << 7;
      header := header | (NODE << 6);
      header := header | (responseType << 4);
      var packet := ControlPacket(header, stackByte);
      outbox := outbox + [Frame(ControlPacketBytes(packet), dest)];
    }

    /** init_node: broadcast a SETUP. */
    method InitNode(stackByte: byte)
      modifies this`outbox
      ensures outbox == old(outbox) + [NodeControlFrame(SETUP, None, stackByte)]
    {
      ControlPacketSend(None, SETUP, stackByte);
    }

    /** input_callback. An empty packet and a DATA packet change nothing. A
      control packet whose response bit is SETUP is answered with a RESPONSE
      to `src` when the node is set up, and ignored otherwise; in both cases
      the parent is unchanged. Any other control packet runs check_parent
      with the decoded role. */
    method InputCallback(data: seq<byte>, len: uint16, src: LinkAddr, rssi: int8, pointerAbove: bool, stackByte: byte)
      requires Valid()
      requires |data| == len
      modifies this
      ensures Valid()
      ensures len == 0 || data[0] >> 7 == DATA ==>
                setup == old(setup) && parent == old(parent) && outbox == old(outbox)
      ensures len != 0 && data[0] >> 7 == CONTROL && ProtoDecode(data[0]).responseType == SETUP ==>
                setup == old(setup) && parent == old(parent) &&
                outbox == old(outbox) + (if old(setup) == 1 then [NodeControlFrame(RESPONSE, Some(src), stackByte)] else [])
      ensures len != 0 && data[0] >> 7 == CONTROL && ProtoDecode(data[0]).responseType != SETUP ==>
                parent == CheckParentRule(old(parent), ProtoParent(src, rssi, ProtoDecode(data[0]).nodeType), pointerAbove) &&
                setup == 1 && outbox == old(outbox)
    {
      if len == 0 {
        return;
      }
      var header := data[0];
      var packetType := header >> 7;
      if packetType == DATA {
        // received data: logged only
      } else if packetType == CONTROL {
        var nodeType := (header >> 6) & 1;
        var responseType := (header >> 4) & 1;
        if setup == 1 && responseType == SETUP {
          ControlPacketSend(Some(src), RESPONSE, stackByte);
          return;
        }
        if responseType == SETUP {
          return;
        }
        CheckParent(src, nodeType, rssi, pointerAbove);
      }
    }
  }
}
