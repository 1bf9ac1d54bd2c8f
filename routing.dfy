/** The parent rule and the packet dispatchers of routing/custom-routing.c,
    over the module globals `setup`, `type_parent` and `parent`, with the
    radio output recorded in an outbox. */
module Routing {
  import opened Link
  import opened RoutingDefs
  import opened ControlCodec
  import opened DataCodec

  /** The three globals the parent rule reads and writes. */
  datatype ParentState = ParentState(setup: byte, typeParent: byte, parent: Option<Parent>)

  /** The globals before any packet has been handled. */
  function InitialParentState(): ParentState
  {
    ParentState(INITIAL_SETUP, INITIAL_TYPE_PARENT, None)
  }

  /** `setup` is 1 exactly when a parent is recorded, and 0 otherwise. */
  predicate ParentInvariant(s: ParentState)
  {
    s.setup == if s.parent.Some? then 1 else 0
  }

  /** set_parent: records the address and rssi in the parent record and the
      role in type_parent; setup is not touched. */
  function SetParentRule(s: ParentState, addr: LinkAddr, nodeType: byte, rssi: int8): ParentState
  {
    s.(typeParent := nodeType, parent := Some(Parent(addr, rssi)))
  }

  /** check_parent_node. `pointerAbove` is the outcome of the pointer
      comparison `parent_addr->parent_addr < src`, which depends on where
      the two addresses happen to be stored and is therefore an input. */
  function CheckParentRule(s: ParentState, src: LinkAddr, nodeType: byte, rssi: int8, pointerAbove: bool): ParentState
  {
    if s.parent.None? then SetParentRule(s.(setup := 1), src, nodeType, rssi)
    else if pointerAbove then SetParentRule(s, src, nodeType, rssi)
    else if s.typeParent == nodeType && s.parent.value.rssi < rssi then SetParentRule(s, src, nodeType, rssi)
    else s
  }

  /** One candidate parent heard by check_parent_node. */
  datatype Candidate = Candidate(src: LinkAddr, nodeType: byte, rssi: int8, pointerAbove: bool)

  /** check_parent_node applied to each candidate in turn. */
  function CheckParentAll(s: ParentState, cs: seq<Candidate>): ParentState
    decreases |cs|
  {
    if cs == [] then s
    else
      var c := cs[0];
      CheckParentAll(CheckParentRule(s, c.src, c.nodeType, c.rssi, c.pointerAbove), cs[1..])
  }

  /** With no parent yet, the candidate is adopted and setup becomes 1. */
  lemma FirstCandidateAdopted(s: ParentState, src: LinkAddr, nodeType: byte, rssi: int8, pointerAbove: bool)
    requires s.parent.None?
    ensures CheckParentRule(s, src, nodeType, rssi, pointerAbove) ==
            ParentState(1, nodeType, Some(Parent(src, rssi)))
  {
  }

  /** With a parent, a candidate of the same role heard with a strictly
      higher rssi replaces it; setup stays as it was. */
  lemma StrongerCandidateReplaces(s: ParentState, src: LinkAddr, nodeType: byte, rssi: int8, pointerAbove: bool)
    requires s.parent.Some? && s.typeParent == nodeType && s.parent.value.rssi < rssi
    ensures CheckParentRule(s, src, nodeType, rssi, pointerAbove) ==
            ParentState(s.setup, nodeType, Some(Parent(src, rssi)))
  {
  }

  /** The parent changes only for the first candidate, when the pointer test
      fires, or for a same-role candidate with a strictly higher rssi;
      otherwise parent, rssi, type_parent and setup are all unchanged. */
  lemma ReplacedOnlyWhenBetter(s: ParentState, src: LinkAddr, nodeType: byte, rssi: int8, pointerAbove: bool)
    ensures CheckParentRule(s, src, nodeType, rssi, pointerAbove) != s ==>
              s.parent.None? || pointerAbove || (s.typeParent == nodeType && s.parent.value.rssi < rssi)
    ensures s.parent.Some? && !pointerAbove && !(s.typeParent == nodeType && s.parent.value.rssi < rssi) ==>
              CheckParentRule(s, src, nodeType, rssi, pointerAbove) == s
  {
  }

  /** The rule keeps `setup` in step with the presence of a parent, and a
      node once set up stays set up. */
  lemma CheckParentKeepsInvariant(s: ParentState, src: LinkAddr, nodeType: byte, rssi: int8, pointerAbove: bool)
    requires ParentInvariant(s)
    ensures ParentInvariant(CheckParentRule(s, src, nodeType, rssi, pointerAbove))
    ensures CheckParentRule(s, src, nodeType, rssi, pointerAbove).setup == 1
  {
  }

  /** Over any run of candidates, once a parent is recorded: the invariant
      holds throughout, and when the pointer test never fires the parent's
      role never changes and its rssi never decreases. */
  lemma {:induction false} AttachedParentOnlyImproves(s: ParentState, cs: seq<Candidate>)
    requires ParentInvariant(s) && s.parent.Some?
    ensures ParentInvariant(CheckParentAll(s, cs)) && CheckParentAll(s, cs).parent.Some?
    ensures (forall i :: 0 <= i < |cs| ==> !cs[i].pointerAbove) ==>
              CheckParentAll(s, cs).typeParent == s.typeParent &&
              CheckParentAll(s, cs).parent.value.rssi >= s.parent.value.rssi
    decreases |cs|
  {
    if cs != [] {
      var c := cs[0];
      var s' := CheckParentRule(s, c.src, c.nodeType, c.rssi, c.pointerAbove);
      AttachedParentOnlyImproves(s', cs[1..]);
      if forall i :: 0 <= i < |cs| ==> !cs[i].pointerAbove {
        assert forall i :: 0 <= i < |cs[1..]| ==> !cs[1..][i].pointerAbove by {
          forall i | 0 <= i < |cs[1..]| ensures !cs[1..][i].pointerAbove {
            assert cs[1..][i] == cs[i + 1];
          }
        }
      }
    }
  }

  /** The frame control_packet_send puts on the air: its header byte only. */
  function ControlFrame(nodeType: byte, responseType: byte, dest: Option<LinkAddr>): Frame
  {
    Frame([HeaderByte(BuildControlHeader(nodeType, responseType))], dest)
  }

  /** The routing globals of one running node, and what it has sent. */
  class Engine {
    var setup: byte
    var typeParent: byte
    var parent: Option<Parent>
    var outbox: seq<Frame>

    function State(): ParentState
      reads this
    {
      ParentState(setup, typeParent, parent)
    }

    ghost predicate Valid()
      reads this
    {
      ParentInvariant(State())
    }

    /** The globals at start-up: not set up, no parent, nothing sent. */
    constructor ()
      ensures Valid()
      ensures State() == InitialParentState() && outbox == []
    {
      setup := INITIAL_SETUP;
      typeParent := INITIAL_TYPE_PARENT;
      parent := None;
      outbox := [];
    }

    /** not_setup: 1 exactly when the setup flag is 0. */
    function NotSetup(): (r: byte)
      reads this
      ensures r <= 1
      ensures r == 1 <==> setup == 0
    {
      if setup == 0 then 1 else 0
    }

    /** set_parent. */
    method SetParent(addr: LinkAddr, nodeType: byte, rssi: int8)
      modifies this
      ensures State() == SetParentRule(old(State()), addr, nodeType, rssi)
      ensures outbox == old(outbox)
    {
      parent := Some(Parent(addr, rssi));
      typeParent := nodeType;
    }

    /** check_parent_node, with the rssi of the last received packet and the
      outcome of the pointer comparison as inputs. */
    method CheckParentNode(src: LinkAddr, nodeType: byte, rssi: int8, pointerAbove: bool)
      requires Valid()
      modifies this
      ensures Valid()
      ensures State() == CheckParentRule(old(State()), src, nodeType, rssi, pointerAbove)
      ensures outbox == old(outbox)
    {
      if parent.None? {
        setup := 1;
        SetParent(src, nodeType, rssi);
        return;
      }
      if pointerAbove {
        SetParent(src, nodeType, rssi);
        return;
      }
      if typeParent == nodeType && parent.value.rssi < rssi {
        SetParent(src, nodeType, rssi);
        return;
      }
    }

    /** control_packet_send: packs a CONTROL header with the given role and
      response kind and sends it to `dest` (None: broadcast). */
    method ControlPacketSend(nodeType: byte, dest: Option<LinkAddr>, responseType: byte)
      modifies this`outbox
      ensures outbox == old(outbox) + [ControlFrame(nodeType, responseType, dest)]
    {
      var header := BuildControlHeader(nodeType, responseType);
      // Two bytes, so that the packer's data[1] store stays in bounds; the
      // stored byte (a truncated, never-set pointer) is not part of the frame.
      var buf := new byte[2];
      PackControlPacket(header, 0, buf);
      assert buf[..1] == [HeaderByte(header)];
      outbox := outbox + [Frame(buf[..1], dest)];
    }

    /** init_node: broadcast a SETUP as a NODE. */
    method InitNode()
      modifies this`outbox
      ensures outbox == old(outbox) + [ControlFrame(NODE, SETUP, None)]
    {
      ControlPacketSend(NODE, None, SETUP);
    }

    /** init_gateway: broadcast a SETUP as the GATEWAY. */
    method InitGateway()
      modifies this`outbox
      ensures outbox == old(outbox) + [ControlFrame(GATEWAY, SETUP, None)]
    {
      ControlPacketSend(GATEWAY, None, SETUP);
    }

    /** forward_data_packet: the buffer, unchanged and with its length, to
      the parent. The source dereferences the parent record, so one must
      exist. */
    method ForwardDataPacket(data: seq<byte>, len: uint16)
      requires |data| == len
      requires parent.Some?
      modifies this`outbox
      ensures outbox == old(outbox) + [Frame(data, Some(parent.value.addr))]
    {
      assert data[..len] == data;
      outbox := outbox + [Frame(data[..len], Some(parent.value.addr))];
    }

    /** send_data_packet: builds a data packet, packs it into a buffer of
      4 + len_topic + len_data bytes and sends nullnet_len (a uint16) bytes
      of it to the parent. */
    method SendDataPacket(lenTopic: uint16, lenData: uint16, topic: seq<byte>, data: seq<byte>)
      requires parent.Some?
      requires lenTopic < 0x8000
      requires |topic| >= lenTopic && |data| >= lenData
      modifies this`outbox
      ensures outbox == old(outbox) +
                [Frame(DataFrame(BuildDataHeader(lenTopic, lenData, topic, data))[..(4 + lenTopic + lenData) % 0x1_0000],
                       Some(parent.value.addr))]
    {
      var packet := BuildDataHeader(lenTopic, lenData, topic, data);
      var buf := new byte[lenTopic + lenData + 4];
      PackDataPacket(packet, buf);
      assert buf[..] == DataFrame(packet);
      var nullnetLen: uint16 := (4 + lenTopic + lenData) % 0x1_0000;
      outbox := outbox + [Frame(buf[..nullnetLen], Some(parent.value.addr))];
    }

    /** process_node_packet. An empty packet changes nothing; otherwise the
      kind bit is reported through packet_type. A DATA packet is forwarded to
      the parent. A control packet whose decoded response kind is SETUP is
      answered with a RESPONSE tagged NODE when the node is set up and
      ignored otherwise; any other control packet runs the parent check.
      (The source first tests the decoded role against GATEWAY; the decoded
      role is one bit, so that test never succeeds and is folded into the
      SETUP test below.) */
    method ProcessNodePacket(data: seq<byte>, len: uint16, src: LinkAddr, packetTypeIn: byte,
                             rssi: int8, pointerAbove: bool)
      returns (packetType: byte)
      requires Valid()
      requires |data| == len
      requires len != 0 && data[0] >> 7 == DATA ==> parent.Some?
      modifies this
      ensures Valid()
      ensures len == 0 ==>
                packetType == packetTypeIn && State() == old(State()) && outbox == old(outbox)
      ensures len != 0 ==> packetType == data[0] >> 7
      ensures len != 0 && packetType == DATA ==>
                State() == old(State()) &&
                outbox == old(outbox) + [Frame(data, Some(old(parent).value.addr))]
      ensures len != 0 && packetType == CONTROL && DecodeControlByte(data[0]).responseType == SETUP ==>
                State() == old(State()) &&
                outbox == old(outbox) + (if old(setup) != 0 then [ControlFrame(NODE, RESPONSE, Some(src))] else [])
      ensures len != 0 && packetType == CONTROL && DecodeControlByte(data[0]).responseType != SETUP ==>
                State() == CheckParentRule(old(State()), src, DecodeControlByte(data[0]).nodeType, rssi, pointerAbove) &&
                outbox == old(outbox)
    {
      if len == 0 {
        return packetTypeIn;
      }
      var head := data[0];
      packetType := head >> 7;
      if packetType == CONTROL {
        var header := ProcessControlHeader(data, len, ControlHeader(0, 0, 0));
        if header.nodeType != GATEWAY && header.responseType == SETUP {
          if NotSetup() == 0 {
            ControlPacketSend(NODE, Some(src), RESPONSE);
          }
          return;
        }
        CheckParentNode(src, header.nodeType, rssi, pointerAbove);
        return;
      }
      if packetType == DATA {
        ForwardDataPacket(data, len);
      }
    }

    /** process_gateway_packet: every non-empty control packet is answered
      with a RESPONSE tagged GATEWAY to its source; data packets and empty
      packets get no reply. The parent globals are not touched. */
    method ProcessGatewayPacket(data: seq<byte>, len: uint16, src: LinkAddr, packetTypeIn: byte)
      returns (packetType: byte)
      requires |data| == len
      modifies this`outbox
      ensures len == 0 ==> packetType == packetTypeIn
      ensures len != 0 ==> packetType == data[0] >> 7
      ensures outbox == old(outbox) +
                (if len != 0 && data[0] >> 7 == CONTROL then [ControlFrame(GATEWAY, RESPONSE, Some(src))] else [])
    {
      if len == 0 {
        return packetTypeIn;
      }
      var head := data[0];
      packetType := head >> 7;
      if packetType == CONTROL {
        ControlPacketSend(GATEWAY, Some(src), RESPONSE);
      }
    }
  }

  /** The gateway's RESPONSE carries GATEWAY << 6 in its header byte, which
      sets bit 7: a node classifies it as DATA. */
  lemma GatewayResponseClassifiedAsData()
    ensures ControlFrame(GATEWAY, RESPONSE, None).bytes[0] >> 7 == DATA
  {
    GatewayHeaderReadAsData(RESPONSE);
  }

  /** Every control frame a gateway sends, whatever its response code and
      destination, has bit 7 set. process_node_packet therefore takes it
      for DATA and hands it to forward_data_packet; it never reaches
      check_parent_node, so no gateway frame can give a node its first
      parent. */
  lemma GatewayFramesNeverReachParentCheck(responseType: byte, dest: Option<LinkAddr>)
    requires responseType < 4
    ensures ControlFrame(GATEWAY, responseType, dest).bytes[0] >> 7 == DATA
    ensures ControlFrame(GATEWAY, responseType, dest).bytes[0] >> 7 != CONTROL
  {
    GatewayHeaderReadAsData(responseType);
  }

  /** A packet sent with send_data_packet and a topic shorter than 256
      bytes decodes back to a DATA header, the topic and the data. */
  lemma SentDataRoundTrip(lenTopic: uint16, lenData: uint16, topic: seq<byte>, data: seq<byte>)
    requires lenTopic < 256 && |topic| >= lenTopic && |data| >= lenData
    requires 4 + lenTopic + lenData < 0x1_0000
    ensures var frame := DataFrame(BuildDataHeader(lenTopic, lenData, topic, data));
            var sent := frame[..(4 + lenTopic + lenData) % 0x1_0000];
            FrameComplete(sent) &&
            DecodeDataFrame(sent) ==
              DataPacket(DataHeader(DATA, lenTopic, lenData), topic[..lenTopic] + [0], data[..lenData] + [0])
  {
    var p := BuildDataHeader(lenTopic, lenData, topic, data);
    var n := 4 + lenTopic + lenData;
    assert n % 0x1_0000 == n;
    FramePayload(p);
    var frame := DataFrame(p);
    assert frame[..n] == frame;
    DataRoundTrip(p);
  }
}

/** One exchange between two engines: a node broadcasts SETUP, the gateway
    answers it, and the node handles the answer. */
module RoutingExchange {
  import opened Link
  import opened RoutingDefs
  import opened Routing

  /** init_node, then process_gateway_packet on the gateway for the SETUP it
      hears, then process_node_packet on the node for the reply. The reply
      is classified as DATA and forwarded unchanged to the node's existing
      parent; neither engine's parent globals are changed by the exchange. A
      node without a parent would forward to a parent it does not have,
      which is why one is required here. */
  method SetupExchange(node: Engine, gateway: Engine, nodeAddr: LinkAddr, gatewayAddr: LinkAddr,
                       rssi: int8, pointerAbove: bool)
    requires node != gateway
    requires node.Valid() && node.parent.Some?
    modifies node, gateway`outbox
    ensures node.State() == old(node.State())
    ensures gateway.State() == old(gateway.State())
    ensures gateway.outbox == old(gateway.outbox) + [ControlFrame(GATEWAY, RESPONSE, Some(nodeAddr))]
    ensures node.outbox == old(node.outbox) +
              [ControlFrame(NODE, SETUP, None),
               Frame(ControlFrame(GATEWAY, RESPONSE, Some(nodeAddr)).bytes, Some(old(node.parent).value.addr))]
  {
    node.InitNode();
    var setup := node.outbox[|node.outbox| - 1];
    assert setup.bytes[0] >> 7 == CONTROL;
    var _ := gateway.ProcessGatewayPacket(setup.bytes, 1, nodeAddr, 0);
    var reply := gateway.outbox[|gateway.outbox| - 1];
    GatewayResponseClassifiedAsData();
    var kind := node.ProcessNodePacket(reply.bytes, 1, gatewayAddr, 0, rssi, pointerAbove);
  }
}
