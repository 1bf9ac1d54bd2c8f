/** One exchange between the prototype node and gateway: the node's SETUP
    broadcast, the gateway's reply and the node's handling of it. */
module ProtoExchange {
  import opened Link
  import opened ProtoDefs
  import ProtoNode
  import ProtoGateway

  /** A node without a parent runs init_node; the gateway's input_callback
      hears the SETUP and answers with a RESPONSE; the node's input_callback
      reads that answer as a control packet from a GATEWAY and adopts the
      gateway as its parent. `stackBytes` are the uninitialised data bytes
      of the two control packets. */
  method SetupExchange(node: ProtoNode.Node, nodeAddr: LinkAddr, gatewayAddr: LinkAddr, rssi: int8,
                       pointerAbove: bool, nodeStackByte: byte, gatewayStackByte: byte)
    requires node.Valid() && node.parent.None?
    modifies node
    ensures node.Valid() && node.setup == 1
    ensures node.parent == Some(ProtoParent(gatewayAddr, rssi, GATEWAY))
    ensures node.outbox == old(node.outbox) + [ProtoNode.NodeControlFrame(SETUP, None, nodeStackByte)]
  {
    node.InitNode(nodeStackByte);
    var setup := node.outbox[|node.outbox| - 1];
    assert setup.bytes[0] >> 7 == CONTROL;
    var sent := ProtoGateway.InputCallback(setup.bytes, 2, nodeAddr, gatewayStackByte);
    var reply := sent[0];
    node.InputCallback(reply.bytes, 2, gatewayAddr, rssi, pointerAbove, nodeStackByte);
  }
}

/** The prototype keeps the parent's role inside the parent record; the
    routing library keeps it in the separate global `type_parent`. The two
    parent rules make the same decision. */
module ProtoAgreement {
  import opened Link
  import opened RoutingDefs
  import ProtoDefs
  import ProtoNode
  import Routing

  /** The library globals that hold what a prototype node holds; with no
      parent, `typeParent` is whatever the library global holds. */
  function AsLibraryState(setup: byte, parent: Option<ProtoDefs.ProtoParent>, typeParent: byte): Routing.ParentState
  {
    match parent
    case None => Routing.ParentState(setup, typeParent, None)
    case Some(p) => Routing.ParentState(setup, p.kind, Some(Parent(p.addr, p.rssi)))
  }

  /** check_parent in node.c and check_parent_node in custom-routing.c,
      given the same candidate and the same pointer comparison, leave the
      same parent, role and setup flag. */
  lemma ParentRulesAgree(setup: byte, parent: Option<ProtoDefs.ProtoParent>, typeParent: byte,
                         src: LinkAddr, nodeType: byte, rssi: int8, pointerAbove: bool)
    ensures AsLibraryState(if parent.None? then 1 else setup,
                           ProtoNode.CheckParentRule(parent, ProtoDefs.ProtoParent(src, rssi, nodeType), pointerAbove),
                           typeParent)
         == Routing.CheckParentRule(AsLibraryState(setup, parent, typeParent), src, nodeType, rssi, pointerAbove)
  {
  }
}
