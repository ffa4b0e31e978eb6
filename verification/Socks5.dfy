/** The two ends of SOCKS5: the server's handshake in pkg/socks5server/handler.go and the client's in
    pkg/upstream/socks5.go. */
module Socks5 {
  import opened ConnTypes
  import opened Wire
  import opened Strings

  // ---- the server ----

  datatype ServerError =
    | ShortGreeting | BadVersion | ShortMethods | NoAcceptableMethod
    | ShortHeader | ShortAddress | UnknownAtyp | ShortPort

  datatype Request = Request(cmd: Byte, host: Address, port: nat)

  datatype Served<+T> = Ok(value: T) | Err(error: ServerError)

  /** negotiateMethod on input s: what it answers, and what is left of s if it accepts. */
  function Greeting(s: Bytes): (Served<Bytes>, Bytes) {
    if |s| < 2 then (Err(ShortGreeting), [])
    else if s[0] != VERSION then (Err(BadVersion), [])
    else
      var n := s[1] as nat;
      if |s| < 2 + n then (Err(ShortMethods), [])
      else if NO_AUTH in s[2..2 + n] then (Ok(s[2 + n..]), [VERSION, NO_AUTH])
      else (Err(NoAcceptableMethod), [VERSION, NO_ACCEPTABLE])
  }

  /** s is a greeting of section 3 of RFC 1928 that offers these methods, and then rest. */
  predicate IsGreeting(s: Bytes, methods: Bytes, rest: Bytes) {
    |methods| <= 255 && s == [VERSION, |methods| as Byte] + methods + rest
  }

  /** What Greeting makes of s, in terms of greetings: it accepts exactly one that offers no authentication,
      refuses any other, and leaves anything else unanswered. */
  lemma GreetingOutcome(s: Bytes)
    ensures forall methods, rest :: IsGreeting(s, methods, rest) ==>
      Greeting(s) == if 0 in methods then (Ok(rest), [5, 0]) else (Err(NoAcceptableMethod), [5, 255])
    ensures (forall methods, rest :: !IsGreeting(s, methods, rest)) ==> Greeting(s).0.Err? && Greeting(s).1 == []
  {
    forall methods, rest | IsGreeting(s, methods, rest)
      ensures s[2..2 + |methods|] == methods && s[2 + |methods|..] == rest
    {
    }
    if |s| >= 2 && |s| >= 2 + s[1] as nat {
      var n := s[1] as nat;
      assert s == [s[0], s[1]] + s[2..2 + n] + s[2 + n..];
      assert s[0] == VERSION ==> IsGreeting(s, s[2..2 + n], s[2 + n..]);
    }
  }

  method NegotiateMethod(c: Conn) returns (r: Option<ServerError>)
    modifies c
    ensures r == None <==> exists methods, rest :: IsGreeting(old(c.Incoming()), methods, rest) && 0 in methods
    ensures forall methods, rest :: IsGreeting(old(c.Incoming()), methods, rest) ==>
      && c.outbox == old(c.outbox) + [5, if 0 in methods then 0 else 255]
      && (0 in methods ==> c.Incoming() == rest)
    ensures
      var (outcome, answer) := Greeting(old(c.Incoming()));
      && c.outbox == old(c.outbox) + answer
      && match outcome
         case Ok(rest) => r == None && c.Incoming() == rest
         case Err(e) => r == Some(e)
  {
    ghost var input := c.Incoming();
    GreetingOutcome(input);
    var hdr := c.ReadFull(2);
    if hdr == None {
      return Some(ShortGreeting);
    }
    if hdr.value[0] != VERSION {
      return Some(BadVersion);
    }
    var methods := c.ReadFull(hdr.value[1] as nat);
    if methods == None {
      return Some(ShortMethods);
    }
    assert input[2..2 + hdr.value[1] as nat] == input[2..][..hdr.value[1] as nat];
    if NO_AUTH in methods.value {
      c.Write([VERSION, NO_AUTH]);
      return None;
    }
    c.Write([VERSION, NO_ACCEPTABLE]);
    return Some(NoAcceptableMethod);
  }

  predicate KnownAtyp(b: Byte) { b == ATYP_IPV4 || b == ATYP_DOMAIN || b == ATYP_IPV6 }

  /** Why a stream that starts with no message is refused. */
  function RequestError(s: Bytes): ServerError {
    if |s| < 4 then ShortHeader
    else if s[0] != VERSION then BadVersion
    else if !KnownAtyp(s[3]) then UnknownAtyp
    else if ParseAddress(s[3], s[4..]) == None then ShortAddress
    else ShortPort
  }

  /** What is wrong with a stream that starts with no message: its version, its address type, or that it ends
      too early, so that more bytes would make it start with one. */
  lemma RequestErrorMeans(s: Bytes)
    requires Parse(s) == None
    ensures RequestError(s) == ShortHeader <==> |s| < 4
    ensures RequestError(s) == BadVersion <==> |s| >= 4 && s[0] != 5
    ensures RequestError(s) == UnknownAtyp <==> |s| >= 4 && s[0] == 5 && s[3] !in {1, 3, 4}
    ensures RequestError(s) in {ShortAddress, ShortPort} <==> |s| >= 4 && exists more :: Parse(s + more).Some?
    ensures RequestError(s) in {ShortHeader, BadVersion, UnknownAtyp, ShortAddress, ShortPort}
    ensures RequestError(s) == ShortPort <==>
      |s| >= 4 && s[0] == 5 && exists a :: WellFormed(a) && Atyp(a) == s[3] && AddressBytes(a) <= s[4..]
  {
    if |s| >= 4 {
      AddressComplete(s[3], s[4..]);
    }
    if |s| >= 4 {
      var more: Bytes := seq(300, _ => 0);
      assert (s + more)[4..] == s[4..] + more;
      forall m | Parse(s + m).Some? ensures s[0] == VERSION && KnownAtyp(s[3]) {
        assert (s + m)[0] == s[0] && (s + m)[3] == s[3];
      }
      if s[0] == VERSION && KnownAtyp(s[3]) {
        assert (s + more)[0] == VERSION && (s + more)[3] == s[3];
        assert Parse(s + more).Some?;
      }
    }
  }

  /** An address can be parsed exactly where all of it is there. */
  lemma AddressComplete(atyp: Byte, s: Bytes)
    ensures ParseAddress(atyp, s).Some? <==> exists a :: WellFormed(a) && Atyp(a) == atyp && AddressBytes(a) <= s
  {
    if ParseAddress(atyp, s).Some? {
      AddressOfParse(atyp, s);
      var a := ParseAddress(atyp, s).value.0;
      assert AddressBytes(a) <= s;
    }
    forall a | WellFormed(a) && Atyp(a) == atyp && AddressBytes(a) <= s ensures ParseAddress(atyp, s).Some? {
      var rest := s[|AddressBytes(a)|..];
      assert s == AddressBytes(a) + rest;
      AddressRoundTrip(a, rest);
    }
  }

  /** readRequest reads exactly one message, whatever its RSV byte, and leaves what follows it. A stream
      that starts with no message is refused. */
  method ReadRequest(c: Conn) returns (r: Served<Request>)
    modifies c
    ensures c.outbox == old(c.outbox)
    ensures
      match Parse(old(c.Incoming()))
      case Some(p) => r == Ok(Request(p.code, p.address, p.port)) && c.Incoming() == p.rest
      case None => r == Err(RequestError(old(c.Incoming())))
  {
    ghost var input := c.Incoming();
    var hdr := c.ReadFull(4);
    if hdr == None {
      return Err(ShortHeader);
    }
    if hdr.value[0] != VERSION {
      return Err(BadVersion);
    }
    var host: Option<Address>, bad: ServerError;
    host, bad := ReadAddress(c, hdr.value[3]);
    if host == None {
      return Err(bad);
    }
    var pb := c.ReadFull(2);
    if pb == None {
      return Err(ShortPort);
    }
    return Ok(Request(hdr.value[1], host.value, pb.value[0] as nat * 256 + pb.value[1] as nat));
  }

  /** The switch over the address type. */
  method ReadAddress(c: Conn, atyp: Byte) returns (r: Option<Address>, bad: ServerError)
    modifies c
    ensures c.outbox == old(c.outbox)
    ensures
      match ParseAddress(atyp, old(c.Incoming()))
      case Some((a, rest)) => r == Some(a) && c.Incoming() == rest
      case None => r == None && bad == if KnownAtyp(atyp) then ShortAddress else UnknownAtyp
  {
    bad := ShortAddress;
    if atyp == ATYP_IPV4 {
      var ip := c.ReadFull(4);
      if ip.Some? {
        r := Some(IPv4(ip.value));
      } else {
        r := None;
      }
    } else if atyp == ATYP_DOMAIN {
      ghost var s := c.Incoming();
      var l := c.ReadFull(1);
      if l == None {
        return None, bad;
      }
      var name := c.ReadFull(l.value[0] as nat);
      if name.Some? {
        assert s[1..1 + s[0] as nat] == s[1..][..s[0] as nat];
        r := Some(Domain(name.value));
      } else {
        r := None;
      }
    } else if atyp == ATYP_IPV6 {
      var ip := c.ReadFull(16);
      if ip.Some? {
        r := Some(IPv6(ip.value));
      } else {
        r := None;
      }
    } else {
      return None, UnknownAtyp;
    }
  }

  /** writeReply: a reply with a zero bound address. */
  method WriteReply(c: Conn, code: Byte)
    modifies c
    ensures c.outbox == old(c.outbox) + Message(code, 0, IPv4([0, 0, 0, 0]), 0)
    ensures c.inbox == old(c.inbox)
  {
    c.Write([VERSION, code, 0, ATYP_IPV4, 0, 0, 0, 0, 0, 0]);
  }

  // ---- the client ----

  datatype Auth = Auth(user: Bytes, pass: Bytes)

  /** What is to be dialled: a host name for the proxy to resolve, or a resolved address. */
  datatype Target = Name(host: Bytes) | Ip(ip: Bytes)

  datatype ClientError =
    | PortOutOfRange | ShortMethod | MethodRefused | CredentialTooLong | ShortAuth | AuthRejected
    | HostTooLong | ShortReply | ConnectFailed(code: Byte) | ReplyAtypUnknown

  /** net.IP.To4. */
  function To4(ip: Bytes): Option<Bytes> {
    if |ip| == 4 then Some(ip)
    else if |ip| == 16 && ip[..12] == [0, 0, 0, 0, 0, 0, 0, 0, 0, 0, 255, 255] then Some(ip[12..])
    else None
  }

  /** The address the client asks for: an IPv4-mapped IPv6 address goes out as IPv4. */
  function AddressOf(t: Target): Address {
    match t
    case Name(host) => Domain(host)
    case Ip(ip) => if To4(ip).Some? then IPv4(To4(ip).value) else IPv6(ip)
  }

  const MAPPED: Bytes := [0, 0, 0, 0, 0, 0, 0, 0, 0, 0, 0xFF, 0xFF]

  /** An address of four bytes, and one of sixteen that maps it, go out as IPv4; any other one as it is. */
  lemma AddressGoesOut(ip: Bytes, v4: Bytes)
    requires |v4| == 4
    ensures AddressOf(Ip(v4)) == AddressOf(Ip(MAPPED + v4)) == IPv4(v4)
    ensures |ip| == 16 && !(MAPPED <= ip) ==> AddressOf(Ip(ip)) == IPv6(ip)
  {
    var mapped := MAPPED + v4;
    assert mapped[..12] == MAPPED && mapped[12..] == v4;
    assert |ip| == 16 && !(MAPPED <= ip) ==> ip[..12] != MAPPED;
  }

  predicate TargetOk(t: Target) { t.Ip? ==> |t.ip| == 4 || |t.ip| == 16 }

  function MethodByte(auth: Option<Auth>): Byte { if auth.Some? then USER_PASS else NO_AUTH }

  /** Why the client gives up on what starts where the reply should, or None. Its VER byte is not looked at. */
  function ReplyError(s: Bytes): Option<ClientError> {
    if |s| < 4 then Some(ShortReply)
    else if s[1] != 0 then Some(ConnectFailed(s[1]))
    else if !KnownAtyp(s[3]) then Some(ReplyAtypUnknown)
    else if ParseFrom(s) == None then Some(ShortReply)
    else None
  }

  /** What follows the reply. */
  function AfterReply(s: Bytes): Bytes
    requires ReplyError(s) == None
  {
    ParseFrom(s).value.rest
  }

  /** s is a reply of section 6 of RFC 1928 with the given code, and then payload. */
  ghost predicate IsReply(s: Bytes, code: Byte, payload: Bytes) {
    exists ver, rsv, bound, port: nat ::
      WellFormed(bound) && port < 0x1_0000 && s == Framed(ver, code, rsv, bound, port) + payload
  }

  /** What ReplyError makes of s, in terms of replies: none exactly for a successful one, with any bound
      address, and the code of one that reports a failure. */
  lemma ReplyOutcome(s: Bytes)
    ensures ReplyError(s) == None <==> exists payload :: IsReply(s, 0, payload)
    ensures ReplyError(s) == None ==> IsReply(s, 0, AfterReply(s))
    ensures forall code, payload ::
      IsReply(s, code, payload) && code != 0 ==> ReplyError(s) == Some(ConnectFailed(code))
    ensures forall code :: ReplyError(s) == Some(ConnectFailed(code)) ==> code != 0 && |s| >= 4 && s[1] == code
    ensures ReplyError(s) == Some(ReplyAtypUnknown) <==> |s| >= 4 && s[1] == 0 && s[3] !in {1, 3, 4}
  {
    forall code, payload | IsReply(s, code, payload)
      ensures if code == 0 then ReplyError(s) == None else ReplyError(s) == Some(ConnectFailed(code))
    {
      var ver, rsv, bound, port: nat :|
        WellFormed(bound) && port < 0x1_0000 && s == Framed(ver, code, rsv, bound, port) + payload;
      ParseOfFramed(ver, code, rsv, bound, port, payload);
    }
    if ReplyError(s) == None {
      FramedOfParse(s);
      var p := ParseFrom(s).value;
      assert s == Framed(s[0], 0, p.rsv, p.address, p.port) + p.rest;
      assert IsReply(s, 0, AfterReply(s));
    }
  }

  /** Reads the reply up to the first payload byte. */
  method DrainReply(c: Conn) returns (r: Option<ClientError>)
    modifies c
    ensures c.outbox == old(c.outbox)
    ensures r == ReplyError(old(c.Incoming()))
    ensures r == None ==> c.Incoming() == AfterReply(old(c.Incoming()))
    ensures r == None <==> exists payload :: IsReply(old(c.Incoming()), 0, payload)
    ensures r == None ==> IsReply(old(c.Incoming()), 0, c.Incoming())
    ensures forall code, payload :: IsReply(old(c.Incoming()), code, payload) && code != 0 ==>
      r == Some(ConnectFailed(code))
  {
    ReplyOutcome(c.Incoming());
    ghost var s := c.Incoming();
    var head := c.ReadFull(4);
    if head == None {
      return Some(ShortReply);
    }
    if head.value[1] != 0 {
      return Some(ConnectFailed(head.value[1]));
    }
    var body: Option<Bytes>;
    if head.value[3] == ATYP_IPV4 {
      body := c.ReadFull(6);
    } else if head.value[3] == ATYP_DOMAIN {
      var n := c.ReadFull(1);
      if n == None {
        return Some(ShortReply);
      }
      body := c.ReadFull(n.value[0] as nat + 2);
    } else if head.value[3] == ATYP_IPV6 {
      body := c.ReadFull(18);
    } else {
      return Some(ReplyAtypUnknown);
    }
    return if body == None then Some(ShortReply) else None;
  }

  /** The RFC 1929 exchange. */
  method Authenticate(c: Conn, auth: Auth) returns (r: Option<ClientError>)
    modifies c
    ensures r == AuthError(auth, old(c.Incoming()))
    ensures r == None ==> c.Incoming() == old(c.Incoming())[2..]
    ensures c.outbox == old(c.outbox) + AuthSent(auth)
  {
    if |auth.user| > 255 || |auth.pass| > 255 {
      return Some(CredentialTooLong);
    }
    var req: Bytes := [1];
    req := req + [|auth.user| as Byte];
    req := req + auth.user;
    req := req + [|auth.pass| as Byte];
    req := req + auth.pass;
    c.Write(req);
    var resp := c.ReadFull(2);
    if resp == None {
      return Some(ShortAuth);
    }
    if resp.value[1] != 0 {
      return Some(AuthRejected);
    }
    return None;
  }

  function AuthSent(auth: Auth): Bytes {
    if |auth.user| > 255 || |auth.pass| > 255 then [] else AuthMessage(auth.user, auth.pass)
  }

  function AuthError(auth: Auth, s: Bytes): Option<ClientError> {
    if |auth.user| > 255 || |auth.pass| > 255 then Some(CredentialTooLong)
    else if |s| < 2 then Some(ShortAuth)
    else if s[1] != 0 then Some(AuthRejected)
    else None
  }

  /** How the method selection ends, on what the server sends. */
  function MethodError(auth: Option<Auth>, s: Bytes): Option<ClientError> {
    if |s| < 2 then Some(ShortMethod)
    else if s[0] != VERSION || s[1] != MethodByte(auth) then Some(MethodRefused)
    else None
  }

  method SelectMethod(c: Conn, auth: Option<Auth>) returns (r: Option<ClientError>)
    modifies c
    ensures r == MethodError(auth, old(c.Incoming()))
    ensures c.outbox == old(c.outbox) + [VERSION, 1, MethodByte(auth)]
    ensures r == None ==> c.Incoming() == old(c.Incoming())[2..]
  {
    var offer := MethodByte(auth);
    c.Write([VERSION, 1, offer]);
    var hdr := c.ReadFull(2);
    if hdr == None {
      return Some(ShortMethod);
    }
    if hdr.value[0] != VERSION || hdr.value[1] != offer {
      return Some(MethodRefused);
    }
    return None;
  }

  /** How CONNECT ends, on what the server sends. */
  function ConnectError(t: Target, s: Bytes): Option<ClientError> {
    if t.Name? && |t.host| > 255 then Some(HostTooLong) else ReplyError(s)
  }

  function ConnectSent(t: Target, port: nat): Bytes
    requires port < 0x1_0000
  {
    if WellFormed(AddressOf(t)) then Message(CONNECT, 0, AddressOf(t), port) else []
  }

  /** ATYP and address. */
  method AppendAddress(req: Bytes, t: Target) returns (grown: Bytes)
    requires TargetOk(t) && WellFormed(AddressOf(t))
    ensures grown == req + [Atyp(AddressOf(t))] + AddressBytes(AddressOf(t))
  {
    grown := req;
    match t {
      case Name(host) =>
        grown := grown + [ATYP_DOMAIN, |host| as Byte];
        grown := grown + host;
      case Ip(ip) =>
        var v4 := To4(ip);
        if v4.Some? {
          grown := grown + [ATYP_IPV4];
          grown := grown + v4.value;
        } else {
          grown := grown + [ATYP_IPV6];
          grown := grown + ip;
        }
    }
  }

  method SendConnect(c: Conn, t: Target, port: nat) returns (r: Option<ClientError>)
    requires TargetOk(t) && port < 0x1_0000
    modifies c
    ensures r == ConnectError(t, old(c.Incoming()))
    ensures WellFormed(AddressOf(t)) <==> r != Some(HostTooLong)
    ensures c.outbox == old(c.outbox) + ConnectSent(t, port)
    ensures r == None ==> c.Incoming() == AfterReply(old(c.Incoming()))
  {
    if t.Name? && |t.host| > 255 {
      return Some(HostTooLong);
    }
    var req: Bytes := [VERSION, CONNECT, 0];
    req := AppendAddress(req, t);
    var pb := PortBytes(port);
    req := req + pb;
    c.Write(req);
    r := DrainReply(c);
  }

  /** What the server sends before its reply, by length. */
  function Preamble(auth: Option<Auth>): nat { if auth.Some? then 4 else 2 }

  /** How the method selection and the authentication end when the server sends input. */
  function OpenError(auth: Option<Auth>, input: Bytes): (e: Option<ClientError>)
    ensures e == None ==> Preamble(auth) <= |input| && CredentialsFit(auth)
  {
    if MethodError(auth, input).Some? then MethodError(auth, input)
    else if auth.Some? then AuthError(auth.value, input[2..])
    else None
  }

  /** What is sent before the request, when the server sends input. */
  function OpenSent(auth: Option<Auth>, input: Bytes): Bytes {
    [VERSION, 1, MethodByte(auth)] + if MethodError(auth, input) == None && auth.Some? then AuthSent(auth.value) else []
  }

  /** What Dial sends when the server sends input: each part only once the one before is answered. */
  function DialSent(auth: Option<Auth>, t: Target, port: nat, input: Bytes): Bytes
    requires port < 0x1_0000
  {
    OpenSent(auth, input) + if OpenError(auth, input) == None then ConnectSent(t, port) else []
  }

  /** How Dial ends when the server sends input. */
  function DialError(auth: Option<Auth>, t: Target, input: Bytes): Option<ClientError> {
    if OpenError(auth, input).Some? then OpenError(auth, input) else ConnectError(t, input[Preamble(auth)..])
  }

  predicate CredentialsFit(auth: Option<Auth>) {
    auth.Some? ==> |auth.value.user| <= 255 && |auth.value.pass| <= 255
  }

  predicate Encodable(auth: Option<Auth>, t: Target) { CredentialsFit(auth) && WellFormed(AddressOf(t)) }

  /** The bytes of a successful Dial. */
  function Transcript(auth: Option<Auth>, t: Target, port: nat): Bytes
    requires port < 0x1_0000 && Encodable(auth, t)
  {
    [VERSION, 1, MethodByte(auth)] + (if auth.Some? then AuthMessage(auth.value.user, auth.value.pass) else [])
    + Message(CONNECT, 0, AddressOf(t), port)
  }

  /** Everything before the request. */
  method Open(c: Conn, auth: Option<Auth>) returns (r: Option<ClientError>)
    modifies c
    ensures r == OpenError(auth, old(c.Incoming()))
    ensures c.outbox == old(c.outbox) + OpenSent(auth, old(c.Incoming()))
    ensures r == None ==> c.Incoming() == old(c.Incoming())[Preamble(auth)..]
  {
    ghost var input := c.Incoming();
    r := SelectMethod(c, auth);
    if r == None && auth.Some? {
      r := Authenticate(c, auth.value);
      assert r == None ==> input[2..][2..] == input[4..];
    }
  }

  /** Dial on an open connection to the proxy. On success the stream stands at the first payload byte. */
  method Dial(c: Conn, auth: Option<Auth>, t: Target, port: int) returns (r: Option<ClientError>)
    requires TargetOk(t)
    modifies c
    ensures
      if 0 <= port < 0x1_0000 then
        && r == DialError(auth, t, old(c.Incoming()))
        && c.outbox == old(c.outbox) + DialSent(auth, t, port, old(c.Incoming()))
      else r == Some(PortOutOfRange) && c.outbox == old(c.outbox) && c.inbox == old(c.inbox)
    ensures r == None ==>
      Preamble(auth) <= |old(c.Incoming())| && c.Incoming() == AfterReply(old(c.Incoming())[Preamble(auth)..])
    ensures r == None <==>
      0 <= port < 0x1_0000 && Encodable(auth, t) && exists payload :: Answers(auth, old(c.Incoming()), 0, payload)
    ensures r == None ==> Answers(auth, old(c.Incoming()), 0, c.Incoming())
    ensures 0 <= port < 0x1_0000 && Encodable(auth, t) ==>
      forall code, payload :: Answers(auth, old(c.Incoming()), code, payload) && code != 0 ==>
        r == Some(ConnectFailed(code))
  {
    DialOutcome(auth, t, c.Incoming());
    if port < 0 || port > 0xFFFF {
      return Some(PortOutOfRange);
    }
    ghost var input := c.Incoming();
    r := Open(c, auth);
    if r == None {
      r := SendConnect(c, t, port);
      Assoc(old(c.outbox), OpenSent(auth, input), ConnectSent(t, port));
    }
  }

  /** The proxy's answers before its reply: the method on offer, and success of the authentication, if any. */
  predicate Welcomes(auth: Option<Auth>, s: Bytes) {
    && |s| == Preamble(auth) && s[0] == VERSION && s[1] == MethodByte(auth)
    && (auth.Some? ==> s[3] == 0)
  }

  /** What the proxy sends is a welcome, a reply with the given code, and then payload. */
  ghost predicate Answers(auth: Option<Auth>, input: Bytes, code: Byte, payload: Bytes) {
    && Preamble(auth) <= |input| && Welcomes(auth, input[..Preamble(auth)])
    && IsReply(input[Preamble(auth)..], code, payload)
  }

  /** What the proxy sends is a welcome, and then rest. */
  predicate Opens(auth: Option<Auth>, input: Bytes, rest: Bytes) {
    Preamble(auth) <= |input| && Welcomes(auth, input[..Preamble(auth)]) && rest == input[Preamble(auth)..]
  }

  /** How Dial ends, in terms of what the proxy sends: it succeeds exactly if credentials and name fit and the
      proxy welcomes it and reports success; a reported failure is its error, and so is a rejection of the
      credentials (section 2 of RFC 1929) or the choice of another method. */
  lemma DialOutcome(auth: Option<Auth>, t: Target, input: Bytes)
    requires TargetOk(t)
    ensures
      DialError(auth, t, input) == None <==> Encodable(auth, t) && exists payload :: Answers(auth, input, 0, payload)
    ensures DialError(auth, t, input) == None ==> Answers(auth, input, 0, AfterReply(input[Preamble(auth)..]))
    ensures forall code, payload :: Encodable(auth, t) && Answers(auth, input, code, payload) && code != 0 ==>
      DialError(auth, t, input) == Some(ConnectFailed(code))
    ensures
      auth.Some? && CredentialsFit(auth) && |input| >= 4 && input[..2] == [VERSION, USER_PASS] && input[3] != 0 ==>
        DialError(auth, t, input) == Some(AuthRejected)
    ensures |input| >= 2 && input[0] == VERSION && input[1] != (if auth.Some? then 2 else 0) ==>
      DialError(auth, t, input) == Some(MethodRefused)
    ensures |input| >= 2 && input[..2] == [VERSION, USER_PASS] && auth.Some? && !CredentialsFit(auth) ==>
      DialError(auth, t, input) == Some(CredentialTooLong)
    ensures CredentialsFit(auth) && !WellFormed(AddressOf(t)) && (exists rest :: Opens(auth, input, rest)) ==>
      DialError(auth, t, input) == Some(HostTooLong)
  {
    OpenOutcome(auth, input);
    if Preamble(auth) <= |input| {
      var rest := input[Preamble(auth)..];
      ReplyOutcome(rest);
      assert t.Ip? ==> WellFormed(AddressOf(t));
      if DialError(auth, t, input) == None {
        assert IsReply(rest, 0, AfterReply(rest));
        assert Answers(auth, input, 0, AfterReply(rest));
      }
    }
  }

  /** The part before the reply. */
  lemma OpenOutcome(auth: Option<Auth>, input: Bytes)
    ensures OpenError(auth, input) == None <==>
      CredentialsFit(auth) && Preamble(auth) <= |input| && Welcomes(auth, input[..Preamble(auth)])
    ensures
      auth.Some? && CredentialsFit(auth) && |input| >= 4 && input[..2] == [VERSION, USER_PASS] && input[3] != 0 ==>
        OpenError(auth, input) == Some(AuthRejected)
    ensures |input| >= 2 && input[0] == VERSION && input[1] != (if auth.Some? then 2 else 0) ==>
      OpenError(auth, input) == Some(MethodRefused)
    ensures |input| >= 2 && input[..2] == [VERSION, USER_PASS] && auth.Some? && !CredentialsFit(auth) ==>
      OpenError(auth, input) == Some(CredentialTooLong)
  {
    if Preamble(auth) <= |input| {
      var head := input[..Preamble(auth)];
      assert head[0] == input[0] && head[1] == input[1];
      assert auth.Some? ==> head[3] == input[3] && input[2..][1] == input[3];
    }
    assert |input| >= 2 ==> input[..2][0] == input[0] && input[..2][1] == input[1];
  }

  /** A successful Dial has sent exactly the transcript. */
  lemma SuccessSendsTranscript(auth: Option<Auth>, t: Target, port: nat, input: Bytes)
    requires TargetOk(t) && port < 0x1_0000 && DialError(auth, t, input) == None
    ensures Encodable(auth, t) && DialSent(auth, t, port, input) == Transcript(auth, t, port)
  {
    assert auth.Some? ==> AuthError(auth.value, input[2..]) == None;
  }

  // ---- both ends together ----

  /** The client drains any successful reply of section 6 of RFC 1928, and nothing beyond it. */
  lemma ReplyIsDrained(ver: Byte, rsv: Byte, bound: Address, port: nat, payload: Bytes)
    requires WellFormed(bound) && port < 0x1_0000
    ensures
      var s := Framed(ver, 0, rsv, bound, port) + payload;
      ReplyError(s) == None && AfterReply(s) == payload
  {
    ParseOfFramed(ver, 0, rsv, bound, port, payload);
  }

  /** What the server makes of a client without credentials: it accepts, reads the very command, address
      and port the client was asked for, and stands at the first payload byte. */
  lemma RequestIsUnderstood(t: Target, port: nat, payload: Bytes)
    requires TargetOk(t) && port < 0x1_0000 && Encodable(None, t)
    ensures
      var (accepted, answer) := Greeting(Transcript(None, t, port) + payload);
      && answer == [VERSION, NO_AUTH]
      && accepted.Ok? && Parse(accepted.value) == Some(Parsed(CONNECT, 0, AddressOf(t), port, payload))
  {
    var request := Message(CONNECT, 0, AddressOf(t), port);
    assert Transcript(None, t, port) + payload == [VERSION, 1, NO_AUTH] + (request + payload);
    NoAuthIsAccepted(request + payload);
    ParseOfMessage(CONNECT, 0, AddressOf(t), port, payload);
  }

  lemma NoAuthIsAccepted(rest: Bytes)
    ensures Greeting([VERSION, 1, NO_AUTH] + rest) == (Ok(rest), [VERSION, NO_AUTH])
  {
    var sent := [VERSION, 1, NO_AUTH] + rest;
    assert sent[2..3] == [NO_AUTH] && sent[3..] == rest;
  }

  /** What the client makes of the server's answer to that greeting and of its reply: success, standing at
      the first payload byte. */
  lemma AnswerIsUnderstood(t: Target, payload: Bytes)
    requires Encodable(None, t)
    ensures
      var received := [VERSION, NO_AUTH] + Message(0, 0, IPv4([0, 0, 0, 0]), 0) + payload;
      DialError(None, t, received) == None && AfterReply(received[Preamble(None)..]) == payload
  {
    var reply := Message(0, 0, IPv4([0, 0, 0, 0]), 0);
    ReplyIsDrained(VERSION, 0, IPv4([0, 0, 0, 0]), 0, payload);
    MethodIsTaken(t, reply + payload);
    Assoc([VERSION, NO_AUTH], reply, payload);
  }

  lemma MethodIsTaken(t: Target, rest: Bytes)
    ensures
      var received := [VERSION, NO_AUTH] + rest;
      received[Preamble(None)..] == rest && DialError(None, t, received) == ConnectError(t, rest)
  {
    assert ([VERSION, NO_AUTH] + rest)[2..] == rest;
  }

  /** With credentials the client offers nothing the server accepts, and takes its answer for a refusal. */
  lemma SessionWithCredentialsFails(auth: Auth, t: Target, more: Bytes, down: Bytes)
    ensures
      var (accepted, answer) := Greeting([VERSION, 1, MethodByte(Some(auth))] + more);
      accepted == Err(NoAcceptableMethod) && DialError(Some(auth), t, answer + down) == Some(MethodRefused)
  {
    var sent := [VERSION, 1, USER_PASS] + more;
    assert sent[2..3] == [USER_PASS];
  }
}
