/** The Contiki link layer as the routing code sees it: octets, signed
    signal strengths, 8-byte link addresses and the frames handed to
    NETSTACK_NETWORK.output. */
module Link {

  /** One octet of a radio buffer (uint8_t). */
  type byte = bv8

  /** A uint16_t. Lengths are kept as integers; the C bit operations on them
      are written as the equivalent arithmetic (`& 0x7FFF` is `% 0x8000`,
      `>> 8` is `/ 256`), which agrees for non-negative values. */
  type uint16 = x: int | 0 <= x < 0x1_0000

  /** A `signed char`, the type of cc2420_last_rssi and of parent rssi fields. */
  type int8 = x: int | -128 <= x < 128

  /** Width of linkaddr_t on the target platform. */
  const LINKADDR_SIZE: nat := 8

  /** A link-layer address (linkaddr_t). */
  type LinkAddr = s: seq<byte> | |s| == LINKADDR_SIZE witness [0, 0, 0, 0, 0, 0, 0, 0]

  datatype Option<T> = None | Some(value: T)

  /** One call of NETSTACK_NETWORK.output: the bytes nullnet_buf[..nullnet_len]
      and the destination, where None is the NULL destination (broadcast). */
  datatype Frame = Frame(bytes: seq<byte>, dest: Option<LinkAddr>)
}
