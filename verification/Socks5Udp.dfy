/** The SOCKS5 UDP request header (rd-std/src/socks5/common.rs), with the address format
    of section 5 and the header of section 7 of RFC 1928. */
module Socks5Udp {
  import opened Outcomes
  import opened Addresses

  const ATYP_V4: Byte := 1
  const ATYP_DOMAIN: Byte := 3
  const ATYP_V6: Byte := 4

  function PortBytes(p: Port): (r: seq<Byte>)
    ensures |r| == 2
  {
    [(p / 256) as Byte, (p % 256) as Byte]
  }

  function PortOf(b: seq<Byte>): Port
    requires |b| == 2
  {
    b[0] as int * 256 + b[1] as int
  }

  /** Addresses that have a wire form. Host names are UTF-8 text, judged by `isText`. */
  predicate Encodable(a: Address, isText: seq<Byte> -> bool) {
    match a
    case Socket(addr) => addr.ip.Valid()
    case Domain(host, _) => |host| <= 255 && isText(host)
  }

  function WriteAddress(a: Address): seq<Byte>
    requires a.Domain? ==> |a.host| <= 255
  {
    match a
    case Socket(SocketAddr(V4(octets), port)) => [ATYP_V4] + octets + PortBytes(port)
    case Socket(SocketAddr(V6(octets), port)) => [ATYP_V6] + octets + PortBytes(port)
    case Domain(host, port) => [ATYP_DOMAIN, |host| as Byte] + host + PortBytes(port)
  }

  /** Reads one address; also gives how many bytes it took. */
  function ReadAddress(b: seq<Byte>, isText: seq<Byte> -> bool): (r: Option<(Address, nat)>)
    ensures r.Some? ==> r.value.1 <= |b|
  {
    if |b| == 0 then None
    else if b[0] == ATYP_V4 then
      if |b| < 7 then None else Some((Socket(SocketAddr(V4(b[1..5]), PortOf(b[5..7]))), 7))
    else if b[0] == ATYP_V6 then
      if |b| < 19 then None else Some((Socket(SocketAddr(V6(b[1..17]), PortOf(b[17..19]))), 19))
    else if b[0] == ATYP_DOMAIN then
      if |b| < 2 then None
      else
        var n := b[1] as int;
        if |b| < n + 4 || !isText(b[2..n + 2]) then None
        else Some((Domain(b[2..n + 2], PortOf(b[n + 2..n + 4])), n + 4))
    else None
  }

  function Packed(a: Address, payload: seq<Byte>): seq<Byte>
    requires a.Domain? ==> |a.host| <= 255
  {
    [0, 0, 0] + WriteAddress(a) + payload
  }

  /** The address and where the payload starts. */
  function Parsed(b: seq<Byte>, isText: seq<Byte> -> bool): (r: Option<(Address, nat)>)
    ensures r.Some? ==> r.value.1 <= |b|
  {
    if |b| < 3 || b[..3] != [0, 0, 0] then None
    else
      match ReadAddress(b[3..], isText)
      case None => None
      case Some((a, n)) => Some((a, n + 3))
  }

  /** Two reserved bytes and a fragment number, all zero; the type; the address with its
      port, high byte first; the payload. */
  ghost predicate Layout(b: seq<Byte>, kind: Byte, address: seq<Byte>, port: Port, payload: seq<Byte>) {
    var n := |address| + 4;
    && |b| == n + 2 + |payload| && b[..4] == [0, 0, 0, kind] && b[4..n] == address
    && b[n] as int * 256 + b[n + 1] as int == port && b[n + 2..] == payload
  }

  lemma LaidOut(b: seq<Byte>, kind: Byte, address: seq<Byte>, port: Port, payload: seq<Byte>)
    requires b == [0, 0, 0] + ([kind] + address + PortBytes(port)) + payload
    ensures Layout(b, kind, address, port, payload)
  {
    var n := |address| + 4;
    assert b[n] == PortBytes(port)[0] && b[n + 1] == PortBytes(port)[1];
  }

  /** What goes over the wire: type 1 and 4 octets, type 4 and 16 octets, or type 3 and a host
      name after its length. */
  lemma PackedLayout(a: Address, payload: seq<Byte>)
    requires if a.Socket? then a.addr.ip.Valid() else |a.host| <= 255
    ensures match a
            case Socket(SocketAddr(ip, port)) => Layout(Packed(a, payload), if ip.V4? then 1 else 4, ip.octets, port, payload)
            case Domain(host, port) => Layout(Packed(a, payload), 3, [|host| as Byte] + host, port, payload)
  {
    match a
    case Socket(SocketAddr(ip, port)) =>
      LaidOut(Packed(a, payload), if ip.V4? then ATYP_V4 else ATYP_V6, ip.octets, port, payload);
    case Domain(host, port) =>
      assert [ATYP_DOMAIN, |host| as Byte] + host == [ATYP_DOMAIN] + ([|host| as Byte] + host);
      LaidOut(Packed(a, payload), ATYP_DOMAIN, [|host| as Byte] + host, port, payload);
  }

  lemma PortRoundTrip(p: Port)
    ensures PortOf(PortBytes(p)) == p
  {
  }

  lemma PortBytesRoundTrip(b: seq<Byte>)
    requires |b| == 2
    ensures PortBytes(PortOf(b)) == b
  {
    var hi, lo := b[0] as int, b[1] as int;
    assert (hi * 256 + lo) / 256 == hi && (hi * 256 + lo) % 256 == lo;
  }

  /** Parsing undoes packing, for every payload. */
  lemma ParseUndoesPack(a: Address, payload: seq<Byte>, isText: seq<Byte> -> bool)
    requires Encodable(a, isText)
    ensures var b := Packed(a, payload);
            var r := Parsed(b, isText);
            r.Some? && r.value.0 == a && b[r.value.1..] == payload
  {
    var w := WriteAddress(a);
    var b := Packed(a, payload);
    assert b[..3] == [0, 0, 0] && b[3..] == w + payload;
    PortRoundTrip(match a case Socket(addr) => addr.port case Domain(_, port) => port);
    ReadUndoesWrite(a, payload, isText);
    assert b[3 + |w|..] == payload;
  }

  lemma ReadUndoesWrite(a: Address, rest: seq<Byte>, isText: seq<Byte> -> bool)
    requires Encodable(a, isText)
    ensures ReadAddress(WriteAddress(a) + rest, isText) == Some((a, |WriteAddress(a)|))
  {
    var w := WriteAddress(a);
    var b := w + rest;
    match a
    case Socket(SocketAddr(V4(octets), port)) =>
      PortRoundTrip(port);
      assert b[1..5] == octets && b[5..7] == PortBytes(port);
    case Socket(SocketAddr(V6(octets), port)) =>
      PortRoundTrip(port);
      assert b[1..17] == octets && b[17..19] == PortBytes(port);
    case Domain(host, port) =>
      PortRoundTrip(port);
      var n := |host|;
      assert b[1] as int == n && b[2..n + 2] == host && b[n + 2..n + 4] == PortBytes(port);
  }

  /** And packing undoes parsing: whatever parses is the packed form of what it parses
      to, so no two headers mean the same. */
  lemma PackUndoesParse(b: seq<Byte>, isText: seq<Byte> -> bool)
    requires Parsed(b, isText).Some?
    ensures var (a, n) := Parsed(b, isText).value;
            Encodable(a, isText) && Packed(a, b[n..]) == b
  {
    var c := b[3..];
    var (a, n) := ReadAddress(c, isText).value;
    WriteUndoesRead(c, isText);
    assert b == [0, 0, 0] + c && c[n..] == b[n + 3..];
    assert b == [0, 0, 0] + WriteAddress(a) + b[n + 3..];
  }

  lemma WriteUndoesRead(b: seq<Byte>, isText: seq<Byte> -> bool)
    requires ReadAddress(b, isText).Some?
    ensures var (a, n) := ReadAddress(b, isText).value;
            Encodable(a, isText) && WriteAddress(a) + b[n..] == b
  {
    if b[0] == ATYP_V4 {
      PortBytesRoundTrip(b[5..7]);
      assert b == [ATYP_V4] + b[1..5] + b[5..7] + b[7..];
    } else if b[0] == ATYP_V6 {
      PortBytesRoundTrip(b[17..19]);
      assert b == [ATYP_V6] + b[1..17] + b[17..19] + b[19..];
    } else {
      var n := b[1] as int;
      PortBytesRoundTrip(b[n + 2..n + 4]);
      assert b == [ATYP_DOMAIN, b[1]] + b[2..n + 2] + b[n + 2..n + 4] + b[n + 4..];
    }
  }

  // ------------------------------------------------------------ in place

  /** A buffer whose first `filled` bytes are in use. */
  class ReadBuf {
    const buf: array<Byte>
    var filled: nat

    constructor (buf: array<Byte>, filled: nat)
      ensures this.buf == buf && this.filled == filled
    {
      this.buf, this.filled := buf, filled;
    }

    ghost predicate Valid() reads this { filled <= buf.Length }
  }

  /** Reads the header and moves the payload to the front; on error nothing changes. */
  method ParseUdp(b: ReadBuf, isText: seq<Byte> -> bool) returns (r: Option<Address>)
    requires b.Valid()
    modifies b, b.buf
    ensures b.Valid()
    ensures match old(Parsed(b.buf[..b.filled], isText))
            case None => r == None && b.filled == old(b.filled) && b.buf[..] == old(b.buf[..])
            case Some((a, n)) =>
              r == Some(a) && b.buf[..b.filled] == old(b.buf[n..b.filled]) && b.buf[b.filled..] == old(b.buf[b.filled - n..])
  {
    var parsed := Parsed(b.buf[..b.filled], isText);
    if parsed.None? {
      return None;
    }
    var pos, left := parsed.value.1, b.filled - parsed.value.1;
    forall i | 0 <= i < left { b.buf[i] := b.buf[i + pos]; }
    b.filled := left;
    return Some(parsed.value.0);
  }

  /** `b` parses to the address, and what follows is the payload. */
  ghost predicate RoundTrips(b: seq<Byte>, a: Address, payload: seq<Byte>, isText: seq<Byte> -> bool) {
    var r := Parsed(b, isText);
    r.Some? && r.value.0 == a && b[r.value.1..] == payload
  }

  /** Host names over 255 bytes have no wire form; what the codec does with one, whether it
      writes something or fails, is for `long` to say. */
  function Written(a: Address, long: Address -> Option<seq<Byte>>): Option<seq<Byte>> {
    if a.Domain? && |a.host| > 255 then long(a) else Some(WriteAddress(a))
  }

  /** For every address and payload: what is written parses back to them exactly if the
      address has a wire form. */
  method PackUdp(a: Address, payload: seq<Byte>, long: Address -> Option<seq<Byte>>) returns (r: Option<seq<Byte>>)
    ensures r.None? <==> Written(a, long).None?
    ensures r.Some? ==> r.value == [0, 0, 0] + Written(a, long).value + payload
    ensures forall isText :: Encodable(a, isText) <==> r.Some? && RoundTrips(r.value, a, payload, isText)
  {
    var vec: seq<Byte> := [];
    vec := vec + [0, 0, 0];
    var wire := Written(a, long);
    if wire.Some? {
      vec := vec + wire.value;
      vec := vec + payload;
      r := Some(vec);
    } else {
      r := None;
    }
    forall isText
      ensures Encodable(a, isText) <==> r.Some? && RoundTrips(r.value, a, payload, isText)
    {
      if Encodable(a, isText) {
        assert r.value == Packed(a, payload);
        ParseUndoesPack(a, payload, isText);
      } else if r.Some? && RoundTrips(r.value, a, payload, isText) {
        PackUndoesParse(r.value, isText);
      }
    }
  }
}
