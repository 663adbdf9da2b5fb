/** Network addresses (rd-interface/src/address.rs). */
module Addresses {
  newtype Byte = b: int | 0 <= b < 256
  type Port = p: int | 0 <= p < 0x1_0000

  /** `part` are the first `n` bytes of `whole`, or all of them if it has no more. */
  ghost predicate FirstBytes(part: seq<Byte>, whole: seq<Byte>, n: nat) {
    part <= whole && |part| == if |whole| <= n then |whole| else n
  }

  datatype Ip = V4(octets: seq<Byte>) | V6(octets: seq<Byte>) {
    predicate Valid() { |octets| == if V4? then 4 else 16 }
  }

  datatype SocketAddr = SocketAddr(ip: Ip, port: Port)

  /** A host name is kept as its UTF-8 bytes. */
  datatype Address = Socket(addr: SocketAddr) | Domain(host: seq<Byte>, port: Port)
}
