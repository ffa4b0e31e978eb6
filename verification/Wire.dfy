/** A byte stream between two peers, and SOCKS5 messages as byte sequences (RFC 1928, RFC 1929). */
module Wire {
  import opened ConnTypes
  import opened Strings

  newtype Byte = x: int | 0 <= x < 256

  type Bytes = seq<Byte>

  function Flatten(fragments: seq<Bytes>): Bytes {
    if fragments == [] then [] else fragments[0] + Flatten(fragments[1..])
  }

  /** One end of a connection. inbox holds what the peer sent, in the fragments in which it will arrive. */
  class Conn {
    var inbox: seq<Bytes>
    var outbox: Bytes

    constructor (inbox: seq<Bytes>)
      ensures this.inbox == inbox && outbox == []
    {
      this.inbox, outbox := inbox, [];
    }

    ghost function Incoming(): Bytes
      reads this
    {
      Flatten(inbox)
    }

    method Write(b: Bytes)
      modifies this
      ensures outbox == old(outbox) + b && inbox == old(inbox)
    {
      outbox := outbox + b;
    }

    /** Up to n bytes of what arrives next; nothing only at the end of the stream. */
    method Read(n: nat) returns (b: Bytes)
      requires n > 0
      modifies this
      ensures b + Incoming() == old(Incoming()) && |b| <= n && (b == [] ==> old(Incoming()) == [])
      ensures outbox == old(outbox)
    {
      while inbox != [] && inbox[0] == []
        invariant Incoming() == old(Incoming()) && outbox == old(outbox)
        decreases |inbox|
      {
        inbox := inbox[1..];
      }
      if inbox == [] {
        return [];
      }
      var first := inbox[0];
      if |first| <= n {
        inbox := inbox[1..];
        return first;
      }
      b := first[..n];
      inbox := [first[n..]] + inbox[1..];
      assert first == first[..n] + first[n..];
    }

    /** io.ReadFull: exactly n bytes, or nothing if the stream ends before. How the bytes are fragmented
        makes no difference. */
    method ReadFull(n: nat) returns (r: Option<Bytes>)
      modifies this
      ensures outbox == old(outbox)
      ensures
        if n <= |old(Incoming())| then r == Some(old(Incoming())[..n]) && Incoming() == old(Incoming())[n..]
        else r == None && Incoming() == []
    {
      var got: Bytes := [];
      while |got| < n
        invariant got + Incoming() == old(Incoming()) && |got| <= n && outbox == old(outbox)
        decreases n - |got|
      {
        var b := Read(n - |got|);
        if b == [] {
          return None;
        }
        got := got + b;
      }
      r := Some(got);
    }
  }

  // ---- messages ----

  const VERSION: Byte := 5
  const NO_AUTH: Byte := 0
  const USER_PASS: Byte := 2
  const NO_ACCEPTABLE: Byte := 255
  const CONNECT: Byte := 1
  const ATYP_IPV4: Byte := 1
  const ATYP_DOMAIN: Byte := 3
  const ATYP_IPV6: Byte := 4

  /** The address field of a request or reply. */
  datatype Address = IPv4(b: Bytes) | Domain(b: Bytes) | IPv6(b: Bytes)

  predicate WellFormed(a: Address) {
    match a
    case IPv4(b) => |b| == 4
    case Domain(b) => |b| <= 255
    case IPv6(b) => |b| == 16
  }

  function Atyp(a: Address): Byte {
    match a
    case IPv4(_) => ATYP_IPV4
    case Domain(_) => ATYP_DOMAIN
    case IPv6(_) => ATYP_IPV6
  }

  /** What follows the ATYP byte, section 5 of RFC 1928. */
  function AddressBytes(a: Address): Bytes
    requires WellFormed(a)
  {
    if a.Domain? then [|a.b| as Byte] + a.b else a.b
  }

  /** A port in network byte order. */
  function PortBytes(port: nat): Bytes
    requires port < 0x1_0000
  {
    [(port / 256) as Byte, (port % 256) as Byte]
  }

  /** A request or a reply: VER, CMD or REP, RSV, ATYP, address, port. */
  function Framed(ver: Byte, code: Byte, rsv: Byte, a: Address, port: nat): Bytes
    requires WellFormed(a) && port < 0x1_0000
  {
    [ver, code, rsv, Atyp(a)] + AddressBytes(a) + PortBytes(port)
  }

  function Message(code: Byte, rsv: Byte, a: Address, port: nat): Bytes
    requires WellFormed(a) && port < 0x1_0000
  {
    Framed(VERSION, code, rsv, a, port)
  }

  /** The address of the given type that s starts with, and what follows it. */
  function ParseAddress(atyp: Byte, s: Bytes): Option<(Address, Bytes)> {
    if atyp == ATYP_IPV4 then (if |s| < 4 then None else Some((IPv4(s[..4]), s[4..])))
    else if atyp == ATYP_DOMAIN then
      if |s| < 1 || |s| < 1 + s[0] as nat then None
      else Some((Domain(s[1..1 + s[0] as nat]), s[1 + s[0] as nat..]))
    else if atyp == ATYP_IPV6 then (if |s| < 16 then None else Some((IPv6(s[..16]), s[16..])))
    else None
  }

  function ParsePort(s: Bytes): Option<(nat, Bytes)> {
    if |s| < 2 then None else Some((s[0] as nat * 256 + s[1] as nat, s[2..]))
  }

  /** The fields of the message s starts with, and what follows it. */
  datatype Parsed = Parsed(code: Byte, rsv: Byte, address: Address, port: nat, rest: Bytes)

  function Parse(s: Bytes): Option<Parsed> {
    if |s| < 4 || s[0] != VERSION then None else ParseFrom(s)
  }

  /** Parse, whatever the first byte. */
  function ParseFrom(s: Bytes): Option<Parsed>
    requires |s| >= 4
  {
    match ParseAddress(s[3], s[4..])
    case None => None
    case Some((a, afterAddress)) =>
      match ParsePort(afterAddress)
      case None => None
      case Some((port, rest)) => Some(Parsed(s[1], s[2], a, port, rest))
  }

  /** Parsing undoes writing, and leaves exactly what follows the message. */
  lemma ParseOfMessage(code: Byte, rsv: Byte, a: Address, port: nat, rest: Bytes)
    requires WellFormed(a) && port < 0x1_0000
    ensures Parse(Message(code, rsv, a, port) + rest) == Some(Parsed(code, rsv, a, port, rest))
  {
    ParseOfFramed(VERSION, code, rsv, a, port, rest);
  }

  lemma ParseOfFramed(ver: Byte, code: Byte, rsv: Byte, a: Address, port: nat, rest: Bytes)
    requires WellFormed(a) && port < 0x1_0000
    ensures
      var s := Framed(ver, code, rsv, a, port) + rest;
      && |s| >= 4 && s[0] == ver && s[1] == code && s[2] == rsv && s[3] == Atyp(a)
      && ParseFrom(s) == Some(Parsed(code, rsv, a, port, rest))
  {
    var head := [ver, code, rsv, Atyp(a)];
    var tail := AddressBytes(a) + (PortBytes(port) + rest);
    Assoc(head + AddressBytes(a), PortBytes(port), rest);
    Assoc(head, AddressBytes(a), PortBytes(port) + rest);
    assert (head + tail)[4..] == tail;
    AddressRoundTrip(a, PortBytes(port) + rest);
    PortRoundTrip(port, rest);
  }

  lemma AddressRoundTrip(a: Address, rest: Bytes)
    requires WellFormed(a)
    ensures ParseAddress(Atyp(a), AddressBytes(a) + rest) == Some((a, rest))
  {
    var s := AddressBytes(a) + rest;
    match a
    case IPv4(b) => assert s[..4] == b && s[4..] == rest;
    case Domain(b) => assert s[0] == |b| as Byte && s[1..1 + |b|] == b && s[1 + |b|..] == rest;
    case IPv6(b) => assert s[..16] == b && s[16..] == rest;
  }

  lemma PortRoundTrip(port: nat, rest: Bytes)
    requires port < 0x1_0000
    ensures ParsePort(PortBytes(port) + rest) == Some((port, rest))
  {
    assert (PortBytes(port) + rest)[2..] == rest;
  }

  lemma AddressOfParse(atyp: Byte, s: Bytes)
    requires ParseAddress(atyp, s).Some?
    ensures
      var (a, rest) := ParseAddress(atyp, s).value;
      WellFormed(a) && Atyp(a) == atyp && s == AddressBytes(a) + rest
  {
    match ParseAddress(atyp, s).value.0
    case IPv4(b) => assert s == s[..4] + s[4..];
    case Domain(b) => assert s == [s[0]] + s[1..1 + s[0] as nat] + s[1 + s[0] as nat..];
    case IPv6(b) => assert s == s[..16] + s[16..];
  }

  lemma PortOfParse(s: Bytes)
    requires ParsePort(s).Some?
    ensures ParsePort(s).value.0 < 0x1_0000 && s == PortBytes(ParsePort(s).value.0) + ParsePort(s).value.1
  {
    var port := s[0] as nat * 256 + s[1] as nat;
    assert (port / 256) as Byte == s[0] && (port % 256) as Byte == s[1];
  }

  /** Only messages parse: s starts with the very bytes of what it parses to. */
  lemma MessageOfParse(s: Bytes)
    requires Parse(s).Some?
    ensures
      var p := Parse(s).value;
      WellFormed(p.address) && p.port < 0x1_0000 && s == Message(p.code, p.rsv, p.address, p.port) + p.rest
  {
    FramedOfParse(s);
  }

  lemma FramedOfParse(s: Bytes)
    requires |s| >= 4 && ParseFrom(s).Some?
    ensures
      var p := ParseFrom(s).value;
      && WellFormed(p.address) && p.port < 0x1_0000 && p.code == s[1]
      && s == Framed(s[0], p.code, p.rsv, p.address, p.port) + p.rest
  {
    var p := ParseFrom(s).value;
    var head := [s[0], p.code, p.rsv, s[3]];
    var u := ParseAddress(s[3], s[4..]).value.1;
    AddressOfParse(s[3], s[4..]);
    PortOfParse(u);
    assert s == head + s[4..];
    Assoc(head, AddressBytes(p.address), u);
    Assoc(head + AddressBytes(p.address), PortBytes(p.port), p.rest);
  }

  // ---- username and password, RFC 1929 ----

  function AuthMessage(user: Bytes, pass: Bytes): Bytes
    requires |user| <= 255 && |pass| <= 255
  {
    [1, |user| as Byte] + user + [|pass| as Byte] + pass
  }

  /** The credentials of section 2 of RFC 1929 that s starts with, and what follows. */
  function ParseAuth(s: Bytes): Option<(Bytes, Bytes, Bytes)> {
    if |s| < 2 || s[0] != 1 then None
    else
      var n := s[1] as nat;
      if |s| < 3 + n then None
      else
        var m := s[2 + n] as nat;
        if |s| < 3 + n + m then None else Some((s[2..2 + n], s[3 + n..3 + n + m], s[3 + n + m..]))
  }

  lemma ParseOfAuthMessage(user: Bytes, pass: Bytes, rest: Bytes)
    requires |user| <= 255 && |pass| <= 255
    ensures ParseAuth(AuthMessage(user, pass) + rest) == Some((user, pass, rest))
  {
    var s := AuthMessage(user, pass) + rest;
    var n, m := |user|, |pass|;
    assert s == [1, n as Byte] + user + [m as Byte] + pass + rest;
    assert s[2..2 + n] == user;
    assert s[2 + n] == m as Byte;
    assert s[3 + n..3 + n + m] == pass;
    assert s[3 + n + m..] == rest;
  }
}
