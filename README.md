# Custom routing for a Contiki sensor network — Dafny model

The system is a small tree-routing layer for Contiki/NullNet motes. A
gateway sits at the root and nodes attach to it. Every radio frame starts
with one header byte, and bit 7 of that byte says whether it is a DATA
frame or a CONTROL frame:

- **Control frames** carry the sender's role and a response kind (SETUP,
  RESPONSE or, in the library, SETUP_ACK).
- **Data frames** carry a topic length and a data length, followed by the
  topic bytes and the data bytes.

A node picks its parent from the control frames it hears and forwards data
frames towards that parent. A Python server reads the text the gateway
relays and reports lines of the form `/barn/topic/=payload`.

The model has four parts:

- **The routing library** (`routing/custom-routing.c` and `.h`):
  - `ControlCodec` and `DataCodec` are the packers and parsers. The packers
    write into caller arrays; the parsers return the record the C code fills
    through an out-parameter.
  - `Routing` holds the parent rule `check_parent_node` over the globals
    `setup`, `type_parent` and `parent`, as the class `Routing.Engine`.
    `Routing.Engine` also holds the node and gateway dispatchers.
  - `RoutingExchange` plays one SETUP exchange between a node and a gateway.
- **The earlier prototype** (`firstnetwork-test/`), which uses one-bit role
  codes:
  - `ProtoDefs`, `ProtoNode` (a class over `setup` and `parent_addr`) and
    `ProtoGateway` (stateless methods);
  - `ProtoExchange`, the SETUP exchange in which a node adopts the gateway;
  - `ProtoAgreement`, which proves that the prototype's parent rule and the
    library's make the same decision.
- **The server's line parser** (`server.py`): `Server`, with Python's
  `str.split` written out, the per-line outcome, and the loop over lines.
- **Shared definitions**: `Link` (bytes, addresses, frames) and
  `RoutingDefs` (the library's constants and records).

Values the source code does not itself determine are parameters:

- the radio's last RSSI, read from the radio driver;
- the outcome of the address-pointer comparison in the parent rule, which
  depends on where the two addresses are stored in memory;
- the uninitialised data byte of a control packet.

Each radio send (`NETSTACK_NETWORK.output` after setting `nullnet_buf` and
`nullnet_len`) is an appended `Frame(bytes, dest)`. A destination of `None`
is the NULL broadcast.

Facts about the code as written, proved in the model:

- The data packer never stores the high bits of `len_topic`, so a topic
  length decodes modulo 256 (`DataCodec.PackedHeaderDecodes`).
- The library's two-bit role and response codes are decoded from single
  bits:
  - GATEWAY is never decoded (`ControlCodec.GatewayRoleNeverDecoded`).
  - A gateway's reply is classified as DATA by a node
    (`ControlCodec.GatewayHeaderReadAsData`).
  - A node therefore forwards that reply to its parent instead of running
    the parent check (`RoutingExchange.SetupExchange`). No gateway frame,
    whatever its response code, reaches the parent check, so none can give
    a node its first parent (`Routing.GatewayFramesNeverReachParentCheck`).
- With the prototype's one-bit codes the same exchange does attach the node
  to the gateway (`ProtoExchange.SetupExchange`).

## Model

| member | source | states |
|---|---|---|
| RoutingDefs.CodesDistinct | routing/custom-routing.h:12-21 | DATA is 1 and CONTROL 0; the role codes are pairwise distinct and so are the response codes; every code fits in two bits |
| RoutingDefs.InitialGlobals | routing/custom-routing.h:92-95 | `setup` and `type_parent` start at 0 and `null_addr` is the all-zero 8-byte address |
| ControlCodec.BuildControlHeader | routing/custom-routing.c:145-149 | the built header is of kind CONTROL and carries the given role and response kind |
| ControlCodec.PackControlPacket | routing/custom-routing.c:151-158 | byte 0 of the caller's buffer becomes kind<<7, or-ed with role<<6, or-ed with response<<4; byte 1 becomes the packet's data field; the later bytes are unchanged |
| ControlCodec.DecodeControlByte | routing/custom-routing.c:165-168 | each decoded field is 0 or 1, and it is 1 exactly when bit 7, 6 or 4 respectively is set |
| ControlCodec.ProcessControlHeader | routing/custom-routing.c:160-169 | an empty packet leaves the header record as it was; otherwise the record is the decoding of byte 0 |
| ControlCodec.ControlRoundTrip | routing/custom-routing.c:151-154 | decoding a packed header whose codes are all 0 or 1 gives back that header |
| ControlCodec.TwoBitCodesMisread | routing/custom-routing.c:151-168 | for two-bit codes, the role's high bit lands in the kind bit and only the low bit of each code is read back |
| ControlCodec.GatewayHeaderReadAsData | routing/custom-routing.h:15-21 | a header sent with role GATEWAY decodes as a DATA header with role NODE; a SETUP_ACK decodes as SETUP |
| ControlCodec.GatewayRoleNeverDecoded | routing/custom-routing.c:167 | no header byte decodes to the role GATEWAY, so the GATEWAY test in the node dispatcher is never true |
| DataCodec.BuildDataHeader | routing/custom-routing.c:49-58 | the header is of kind DATA; len_topic keeps its low 15 bits (less 0x8000 when bit 15 was set); len_data, topic and data are kept as given |
| DataCodec.WriteDataHeader | routing/custom-routing.c:61-68 | the first four buffer bytes become the header bytes (kind in bit 7 of byte 0, the low byte of len_topic, len_data big-endian); the rest of the buffer is unchanged |
| DataCodec.PackDataPacket | routing/custom-routing.c:60-73 | the buffer's first 4+len_topic+len_data bytes become the header, then the topic, then the data; later bytes are unchanged |
| DataCodec.DataFrameLayout | routing/custom-routing.c:60-73 | the frame is 4+len_topic+len_data long; the kind is in bit 7 of byte 0 and bits 0-6 of that byte are zero; byte 1 is len_topic mod 256; bytes 2-3 are len_data big-endian; the topic is at offset 4 and the data at 4+len_topic |
| DataCodec.FramePayload | routing/custom-routing.c:71-72 | the frame is 4+len_topic+len_data long; the topic slice sits at 4 and the data slice right after it |
| DataCodec.DecodeDataHeader | routing/custom-routing.c:83-89 | the kind is 0 or 1 and is 1 exactly when bit 7 of byte 0 is set; the decoded len_topic is below 0x8000 |
| DataCodec.DecodeDataFrame | routing/custom-routing.c:83-98 | the header is decoded from bytes 0-3; the topic has len_topic bytes copied from offset 4 plus a NUL; the data has len_data bytes copied from 4+len_topic plus a NUL |
| DataCodec.ProcessDataPacket | routing/custom-routing.c:75-103 | an empty packet leaves the record untouched; otherwise the record is the decoded frame, whose declared lengths the model requires to fit in the packet |
| DataCodec.PackedHeaderDecodes | routing/custom-routing.c:64-66 | the packed header decodes to the kind's low bit, len_topic mod 256 and len_data: the high bits of len_topic are never stored |
| DataCodec.HeaderRoundTrip | routing/custom-routing.c:61-68 | for a kind of 0 or 1 and len_topic below 256, the packed header decodes to itself |
| DataCodec.DataRoundTrip | routing/custom-routing.c:60-103 | for a kind of 0 or 1 and len_topic below 256, parsing the packed frame returns the same header, topic and data, each followed by a NUL |
| Routing.FirstCandidateAdopted | routing/custom-routing.c:200-205 | with no parent, the candidate's address, rssi and role are stored and `setup` becomes 1 |
| Routing.StrongerCandidateReplaces | routing/custom-routing.c:216-223 | with a parent of the same role and strictly lower rssi, the candidate replaces it |
| Routing.ReplacedOnlyWhenBetter | routing/custom-routing.c:195-226 | a change of state means there was no parent, the pointer test fired, or the candidate had the same role and higher rssi; otherwise parent, rssi, `type_parent` and `setup` are all unchanged |
| Routing.CheckParentKeepsInvariant | routing/custom-routing.c:195-226 | after the rule, `setup` is 1 and a parent is recorded |
| Routing.AttachedParentOnlyImproves | routing/custom-routing.h:247-257 | once attached, a node stays attached and keeps `setup` in step over any run of candidates; when the pointer test never fires, the parent's role never changes and its rssi never decreases |
| Routing.Engine.constructor | routing/custom-routing.h:91-96 | the globals start with `setup` 0, `type_parent` 0, no parent and nothing sent |
| Routing.Engine.NotSetup | routing/custom-routing.c:25-28 | returns 0 or 1, and returns 1 exactly when `setup` is 0 |
| Routing.Engine.SetParent | routing/custom-routing.c:13-23 | records the address and rssi in the parent and the role in `type_parent`; `setup` is not touched |
| Routing.Engine.CheckParentNode | routing/custom-routing.c:195-226 | the new globals are the parent rule applied to the old ones; nothing is sent |
| Routing.Engine.ControlPacketSend | routing/custom-routing.c:174-193 | appends one frame to `dest`, holding the packed header byte for the role and response kind |
| Routing.Engine.InitNode | routing/custom-routing.c:30-36 | broadcasts one SETUP tagged NODE |
| Routing.Engine.InitGateway | routing/custom-routing.c:38-44 | broadcasts one SETUP tagged GATEWAY |
| Routing.Engine.ForwardDataPacket | routing/custom-routing.c:130-140 | appends exactly the given bytes, of the given length, addressed to the parent |
| Routing.Engine.SendDataPacket | routing/custom-routing.c:110-128 | appends the packed frame of the built header, topic and data, cut to (4+len_topic+len_data) mod 2^16 bytes because the length is stored in the 16-bit `nullnet_len`, addressed to the parent |
| Routing.Engine.ProcessNodePacket | routing/custom-routing.c:231-276 | an empty packet has no effect. Otherwise `packet_type` is bit 7 and: DATA is forwarded unchanged to the parent; a SETUP control packet gets a RESPONSE tagged NODE back to `src` when `setup` is 1 and is ignored when it is 0; any other control packet runs the parent rule |
| Routing.Engine.ProcessGatewayPacket | routing/custom-routing.c:278-294 | `packet_type` is bit 7 of a non-empty packet; each non-empty control packet gets a RESPONSE tagged GATEWAY to `src`; data and empty packets get nothing; the parent globals are untouched |
| Routing.GatewayResponseClassifiedAsData | routing/custom-routing.c:238 | the gateway's RESPONSE header has bit 7 set, so a node reads it as DATA |
| Routing.GatewayFramesNeverReachParentCheck | routing/custom-routing.c:238-249 | every control frame a gateway sends, for any response code below 4, has bit 7 set: a node classifies it as DATA, so it never reaches check_parent_node |
| Routing.SentDataRoundTrip | routing/custom-routing.c:110-121 | for len_topic below 256 and 4+len_topic+len_data below 2^16, the bytes send_data_packet puts on the air parse back to a DATA header, the topic and the data; a longer frame is cut short by the 16-bit length and does not round-trip |
| RoutingExchange.SetupExchange | routing/custom-routing.c:231-294 | after a node's SETUP and the gateway's reply, the gateway has sent one RESPONSE to the node and the gateway's parent globals are unchanged; the node forwards that reply unchanged to its existing parent and its parent globals are unchanged |
| ProtoDefs.ControlPacketBytes | firstnetwork-test/custom-routing.h:24-27 | a control packet is two bytes on the air: the header byte, then the data byte |
| ProtoDefs.ProtoDecode | firstnetwork-test/node.c:134-143 | each decoded field is 0 or 1, and it is 1 exactly when bit 7, 6 or 4 respectively is set |
| ProtoDefs.CodesFitOneBit | firstnetwork-test/custom-routing.h:1-8 | each one-bit code survives `& 0b1`, and the two codes of each pair differ |
| ProtoDefs.ProtoRoundTrip | firstnetwork-test/node.c:110-114 | encoding a one-bit kind, role and response kind and then reading bits 7, 6 and 4 gives them back |
| ProtoNode.CheckParentCases | firstnetwork-test/node.c:83-107 | with no parent the candidate is adopted; a same-role candidate with strictly higher rssi replaces the parent; when neither rule nor the pointer test fires, the parent is kept |
| ProtoNode.Node.constructor | firstnetwork-test/node.c:63-65 | `setup` is 0, there is no parent and nothing has been sent |
| ProtoNode.Node.CheckParent | firstnetwork-test/node.c:68-108 | the new parent follows the rule above; `setup` becomes 1 on the first adoption and is otherwise kept; nothing is sent |
| ProtoNode.Node.ControlPacketSend | firstnetwork-test/node.c:110-123 | appends one two-byte frame to `dest`: CONTROL<<7, or-ed with NODE<<6, or-ed with response<<4, then the data byte |
| ProtoNode.Node.InitNode | firstnetwork-test/node.c:162-172 | broadcasts one SETUP |
| ProtoNode.Node.InputCallback | firstnetwork-test/node.c:126-160 | empty and DATA packets change nothing. A SETUP with `setup` 1 is answered with a RESPONSE to `src`, and is ignored with `setup` 0; in both cases the parent is unchanged. Any other control packet runs check_parent with the decoded role |
| ProtoGateway.ControlPacketSend | firstnetwork-test/gateway.c:68-78 | returns a two-byte frame to `dest` whose header is CONTROL<<7, or-ed with GATEWAY<<6, or-ed with response<<4; for a one-bit response kind, bit 7 is clear and bit 6 set |
| ProtoGateway.InputCallback | firstnetwork-test/gateway.c:80-107 | empty and DATA packets produce nothing; every control packet is answered with one frame to `src`, whose bytes are the RESPONSE header tagged GATEWAY and the data byte |
| ProtoGateway.InitGateway | firstnetwork-test/gateway.c:109-111 | sends exactly one frame: a SETUP broadcast tagged GATEWAY |
| ProtoExchange.SetupExchange | firstnetwork-test/node.c:126-172 | a node without a parent broadcasts SETUP and handles the gateway's reply; it then has the gateway, with the reply's rssi, as its parent and `setup` 1 |
| ProtoAgreement.ParentRulesAgree | firstnetwork-test/node.c:68-108 | the prototype's check_parent and the library's check_parent_node leave the same parent, role and `setup` for the same candidate |
| Server.Split | server.py:9 | at least one piece; no piece contains the separator; joining the pieces with it gives the text back |
| Server.SplitJoin | server.py:14 | splitting pieces that were joined on a separator they do not contain gives those pieces back |
| Server.SplitTrailingSep | server.py:9 | a text ending in the separator splits like the text without it, plus one empty last piece |
| Server.JoinFree | server.py:15 | a character absent from a text is absent from every piece it splits into |
| Server.ParseLine | server.py:11-16 | an empty line raises IndexError; a line is skipped exactly when it does not start with '/'; the barn, topic and payload of a reported line contain no '/', and the payload contains no '=' |
| Server.WellFormedLine | server.py:8 | `/barn/topic/=payload`, with '/'-free parts and an '='-free payload, is reported as exactly (barn, topic, payload) |
| Server.SplitSingleIffNoSep | server.py:15 | a text splits into a single piece exactly when it does not contain the separator |
| Server.ValueErrorIffNotThreeFields | server.py:13-14 | a '/'-prefixed line raises ValueError exactly when the text after its '/' does not split on '/' into three fields |
| Server.IndexErrorIffNoEquals | server.py:15 | a '/'-prefixed line with three fields raises IndexError exactly when its third field contains no '=' |
| Server.PayloadAfterSingleEquals | server.py:15 | with one '=' in the third field, the reported payload is the text after it, whatever precedes it |
| Server.PayloadBetweenFirstTwoEquals | server.py:15 | when the third field holds several '=', the reported payload is the text between the first and the second |
| Server.ExampleLine | server.py:32 | "/1/lights/=on" is reported as ("1", "lights", "on") |
| Server.NoErrorWhenNoLineRaises | server.py:10-16 | if no line raises, the call raises nothing, and its reports are exactly those of the reported lines, in order, with skipped lines dropped (at most one per line) |
| Server.AllLinesReportedInOrder | server.py:10-16 | if every line is well formed, each is reported, in order |
| Server.EmptyLastLineRaises | server.py:11 | if the last line is empty, the call ends with an exception |
| Server.TrailingNewlineRaises | server.py:9-11 | input that ends with a newline always ends with an exception |
| Server.FirstErrorStops | server.py:10-16 | when line k is the first line that raises, the call raises that line's exception and its reports are exactly those of the reported lines before k, in order |
| Server.ProcessGatewayData | server.py:7-16 | the loop reports what the line-by-line specification reports, and stops at the first exception with the reports made before it |

## Left out

- Contiki processes, event timers and the callback registration are left
  out. This includes the node's loop that repeats init_node until `setup`
  is set (firstnetwork-test/node.c:187-192). `ProtoExchange.SetupExchange`
  shows that one exchange ends that loop.
- Radio output and `cc2420_last_rssi` are not modelled as such. A send is
  an appended frame, and the rssi is a parameter.
- Logging and `print_data_packet`/`print_control_packet` are left out.
- `malloc`, `free` and leaks are left out. Records are values.
- ControlCodec.PackControlPacket: the byte stored in data[1] is the
  parameter `dataByte`. In the source it is the `data` pointer of the
  packet record, never set and truncated to a byte
  (routing/custom-routing.c:157). The buffer must hold two bytes. The
  source's control_packet_send allocates only `len_of_data + 1` bytes, which
  is one byte for every caller, so that store runs past the allocation
  (routing/custom-routing.c:183-184).
- Routing.Engine.ControlPacketSend: the frame is the header byte only. The
  buffer passed to the packer has two bytes, and the byte stored at data[1]
  is not sent.
  - The source also writes an uninitialised pointer, truncated to a byte,
    as byte 1 (routing/custom-routing.c:157).
  - It sends `sizeof(data)` bytes, which is the size of a pointer
    (routing/custom-routing.c:186).
  - The `len_of_data` parameter only sizes the allocation.
- DataCodec.ProcessDataPacket requires a non-empty packet to hold the
  whole frame its header declares.
  - The source never compares `len` with len_topic or len_data
    (routing/custom-routing.c:75-103), and its callers pass the radio
    buffer and length straight in.
  - A shorter frame makes the source read past the packet; the model
    excludes that case.
- Routing.Engine.SendDataPacket requires len_topic below 0x8000.
  - The packer copies the masked length of topic.
  - The frame length uses the unmasked one, so for a larger len_topic the
    trailing sent bytes are unwritten heap memory.
  - The length that is sent is still taken modulo 2^16.
- Routing.Engine.ProcessNodePacket and ForwardDataPacket require a parent
  for a DATA packet. Without one the source dereferences the NULL `parent`
  global.
- Routing.Engine.CheckParentNode: the source's "no parent" test is on the
  `parent` global, which both callers pass (routing/custom-routing.c:249,
  :267). The model reads a NULL `parent` as "no parent recorded" and that
  branch as a first adoption.
  - As written, that branch writes through the NULL pointer, both at
    routing/custom-routing.c:202 and in set_parent (:14, :16).
  - Nothing in custom-routing.c ever assigns `parent` itself.
  - The node driver allocates `parent` before any packet arrives
    (node.c:37-40). Under that driver the branch never runs, so
    check_parent_node never sets `setup` there.
  - The separate allocation of the address at
    routing/custom-routing.c:202 is not modelled.
- The parent rule's pointer comparison (routing/custom-routing.c:209,
  firstnetwork-test/node.c:91) is the boolean parameter `pointerAbove`.
  Which way it goes depends on where the two addresses are stored.
- ProtoNode.Node.CheckParent keeps the candidate's address by value. The
  source stores a pointer to a stack copy of `src`, which dangles once
  check_parent returns.
- The prototype's control packet data byte is never initialised. It is the
  parameter `stackByte`.
- `get_parent` (routing/custom-routing.c:9-11) only returns the `parent`
  global, which is the field `Routing.Engine.parent`.
- Unused parts of the headers are not modelled:
  - the `node_type` global (routing/custom-routing.h:96), which no
    modelled function reads;
  - the `dest` parameter of the dispatchers;
  - the `type` field of the library's `parent_t` (routing/custom-routing.h:35-39),
    which is never written because the role is kept in `type_parent`.
- Declarations without bodies are not modelled: the child table,
  `packet_t` envelopes, multicast groups, acknowledgements and mobile
  queries (routing/custom-routing.h:23-27, :84-88, :113-122, :158, :167).
- The role drivers and `node-light-sensor.c` are not part of this model.
  The same holds for `process_sub_gateway_packet` and `init_sub_gateway`,
  which are declared but have no body.
- Where the header and the C file disagree, the model follows the C
  bodies:
  - `set_parent` has three parameters;
  - `parent->parent_addr` is a reference;
  - the `parent` global is used although its declaration is commented out.
- `server.py`: `recv`, `main`, argument parsing and the MQTT import are
  left out.
  - Printing a report is modelled as appending it to `reports`.
  - An exception is modelled as the returned `error`.
  - Strings are sequences of characters with no decoding step.
