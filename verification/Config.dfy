/** pkg/config/validate.go: which configurations are accepted, and what acceptance guarantees. */
module Config {
  import opened ConnTypes
  import opened Strings
  import M = Matcher

  const SOCKS5 := "socks5"
  const HTTP := "http"
  const DIRECT := "direct"
  const SSH := "ssh"
  const FORWARD := "forward"
  const OPEN_CONNECT := "openconnect"
  const TCP := "tcp"

  const OPEN_CONNECT_PROTOCOLS := {"f5", "anyconnect", "nc", "gp", "pulse", "fortinet", "array"}

  datatype Auth = Auth(username: string, password: string)

  datatype Upstream = Upstream(
    typ: string, addr: string, url: string, dns: string, auth: Option<Auth>,
    host: string, port: int, user: string, keyFile: string, keyFilePassphrase: string, identityAgent: string,
    hostKey: string, via: string,
    server: string, protocol: string, serverCert: string, tun: bool)

  datatype Listener = Listener(typ: string, listen: string, upstream: string, target: string)

  datatype Config = Config(
    listen: string, logLevel: string, upstreams: map<string, Upstream>, rules: seq<M.Rule>, listeners: seq<Listener>)

  /** Library code that is not part of this model: net.SplitHostPort, url.Parse as far as scheme and host go, and
      the decoding of base64. */
  datatype Lib = Lib(
    splitHostPort: string -> Option<(string, string)>,
    parseUrl: string -> Option<(string, string)>,
    decodeBase64: string -> Option<seq<nat>>)

  // ---- one upstream ----

  /** The fields that only one type of upstream may set. */
  datatype Field =
    | HostField | PortField | UserField | KeyFileField | PassphraseField | AgentField | HostKeyField | ViaField
    | ServerField | ProtocolField | ServerCertField | TunField

  const SSH_FIELDS :=
    [HostField, PortField, UserField, KeyFileField, PassphraseField, AgentField, HostKeyField, ViaField]

  const OPEN_CONNECT_FIELDS := [ServerField, ProtocolField, ServerCertField, TunField]

  predicate IsSet(u: Upstream, f: Field) {
    match f
    case HostField => u.host != ""
    case PortField => u.port != 0
    case UserField => u.user != ""
    case KeyFileField => u.keyFile != ""
    case PassphraseField => u.keyFilePassphrase != ""
    case AgentField => u.identityAgent != ""
    case HostKeyField => u.hostKey != ""
    case ViaField => u.via != ""
    case ServerField => u.server != ""
    case ProtocolField => u.protocol != ""
    case ServerCertField => u.serverCert != ""
    case TunField => u.tun
  }

  /** What may be wrong with one upstream. */
  datatype Fault =
    | TypeUnknown
    | AddrRequired
    | AddrBad
    | AddrHostRequired
    | UrlRequired
    | HostRequired
    | PortOutOfRange
    | KeyRequired
    | HostKeyNotSHA256
    | HostKeyNotBase64
    | HostKeyLength
    | ServerRequired
    | ServerBad
    | ServerNotHttps
    | ProtocolUnknown
    | UsernameRequired
    | OnlyForSSH(field: Field)
    | OnlyForOpenConnect(field: Field)
    | DnsUnknown

  const FINGERPRINT := "SHA256:"
  const DIGEST_SIZE := 32

  /** The fault f is in u. */
  predicate Faulty(lib: Lib, u: Upstream, f: Fault) {
    match f
    case TypeUnknown => u.typ !in {SOCKS5, HTTP, DIRECT, SSH, FORWARD, OPEN_CONNECT}
    case AddrRequired => u.typ in {SOCKS5, FORWARD} && u.addr == ""
    case AddrBad => u.typ == FORWARD && u.addr != "" && lib.splitHostPort(u.addr) == None
    case AddrHostRequired =>
      u.typ == FORWARD && u.addr != "" && lib.splitHostPort(u.addr).Some? && lib.splitHostPort(u.addr).value.0 == ""
    case UrlRequired => u.typ == HTTP && u.url == ""
    case HostRequired => u.typ == SSH && u.host == ""
    case PortOutOfRange => u.typ == SSH && !(0 <= u.port < 0x1_0000)
    case KeyRequired => u.typ == SSH && u.keyFile == "" && u.identityAgent == ""
    case HostKeyNotSHA256 => u.typ == SSH && u.hostKey != "" && !HasPrefix(u.hostKey, FINGERPRINT)
    case HostKeyNotBase64 =>
      u.typ == SSH && HasPrefix(u.hostKey, FINGERPRINT) && lib.decodeBase64(u.hostKey[|FINGERPRINT|..]) == None
    case HostKeyLength =>
      && u.typ == SSH && HasPrefix(u.hostKey, FINGERPRINT) && lib.decodeBase64(u.hostKey[|FINGERPRINT|..]).Some?
      && |lib.decodeBase64(u.hostKey[|FINGERPRINT|..]).value| != DIGEST_SIZE
    case ServerRequired => u.typ == OPEN_CONNECT && u.server == ""
    case ServerBad => u.typ == OPEN_CONNECT && u.server != "" && lib.parseUrl(u.server) == None
    case ServerNotHttps =>
      && u.typ == OPEN_CONNECT && u.server != "" && lib.parseUrl(u.server).Some?
      && !(lib.parseUrl(u.server).value.0 == "https" && lib.parseUrl(u.server).value.1 != "")
    case ProtocolUnknown => u.typ == OPEN_CONNECT && u.protocol !in OPEN_CONNECT_PROTOCOLS + {""}
    case UsernameRequired => u.typ == OPEN_CONNECT && (u.auth == None || u.auth.value.username == "")
    case OnlyForSSH(field) => u.typ != SSH && field in SSH_FIELDS && IsSet(u, field)
    case OnlyForOpenConnect(field) => u.typ != OPEN_CONNECT && field in OPEN_CONNECT_FIELDS && IsSet(u, field)
    case DnsUnknown => u.dns !in {"", "local", "remote"}
  }

  /** The position of the field in a list of fields. */
  function FieldRank(fields: seq<Field>, f: Field): (rank: nat)
    ensures rank <= |fields|
  {
    if fields == [] || fields[0] == f then 0 else 1 + FieldRank(fields[1..], f)
  }

  /** The order in which validate looks for the faults of one upstream. */
  function FaultRank(f: Fault): nat {
    match f
    case AddrBad => 1
    case AddrHostRequired => 2
    case PortOutOfRange => 1
    case KeyRequired => 2
    case HostKeyNotSHA256 => 3
    case HostKeyNotBase64 => 4
    case HostKeyLength => 5
    case ServerBad => 1
    case ServerNotHttps => 2
    case ProtocolUnknown => 3
    case UsernameRequired => 4
    case OnlyForSSH(field) => 10 + FieldRank(SSH_FIELDS, field)
    case OnlyForOpenConnect(field) => 20 + FieldRank(OPEN_CONNECT_FIELDS, field)
    case DnsUnknown => 30
    case _ => 0
  }

  /** r is the first fault of u of those with ranks from lo to hi, or there is none of them. */
  ghost predicate FirstFault(lib: Lib, u: Upstream, lo: nat, hi: nat, r: Option<Fault>) {
    match r
    case None => forall f :: lo <= FaultRank(f) < hi ==> !Faulty(lib, u, f)
    case Some(e) =>
      && Faulty(lib, u, e) && lo <= FaultRank(e) < hi
      && forall f :: lo <= FaultRank(f) < FaultRank(e) ==> !Faulty(lib, u, f)
  }

  lemma RankKinds(f: Fault)
    ensures 10 <= FaultRank(f) < 20 <==> f.OnlyForSSH?
    ensures 20 <= FaultRank(f) < 30 <==> f.OnlyForOpenConnect?
    ensures 30 <= FaultRank(f) <==> f.DnsUnknown?
    ensures FaultRank(f) <= 30
  {
  }

  /** No fault up to mid, and then r. */
  lemma FaultsSoFar(lib: Lib, u: Upstream, mid: nat, hi: nat, r: Option<Fault>)
    requires mid <= hi && FirstFault(lib, u, 0, mid, None) && FirstFault(lib, u, mid, hi, r)
    ensures FirstFault(lib, u, 0, hi, r)
  {
  }

  /** Upstream.validate finds the first fault, if there is one. */
  method ValidateUpstream(lib: Lib, u: Upstream) returns (r: Option<Fault>)
    ensures FirstFault(lib, u, 0, 31, r)
  {
    r := ValidateType(lib, u);
    if r.Some? {
      return;
    }
    r := RejectSSHFields(lib, u);
    FaultsSoFar(lib, u, 10, 20, r);
    if r.Some? {
      return;
    }
    r := RejectOpenConnectFields(lib, u);
    FaultsSoFar(lib, u, 20, 30, r);
    if r.Some? {
      return;
    }
    r := ValidateDns(lib, u);
    FaultsSoFar(lib, u, 30, 31, r);
  }

  method ValidateDns(lib: Lib, u: Upstream) returns (r: Option<Fault>)
    ensures FirstFault(lib, u, 30, 31, r)
  {
    forall f ensures 30 <= FaultRank(f) <==> f.DnsUnknown? {
      RankKinds(f);
    }
    if u.dns != "" && u.dns != "local" && u.dns != "remote" {
      return Some(DnsUnknown);
    }
    return None;
  }

  /** The switch over the type. */
  method ValidateType(lib: Lib, u: Upstream) returns (r: Option<Fault>)
    ensures FirstFault(lib, u, 0, 10, r)
  {
    if u.typ == SOCKS5 {
      if u.addr == "" {
        return Some(AddrRequired);
      }
    } else if u.typ == HTTP {
      if u.url == "" {
        return Some(UrlRequired);
      }
    } else if u.typ == FORWARD {
      if u.addr == "" {
        return Some(AddrRequired);
      }
      var split := lib.splitHostPort(u.addr);
      if split == None {
        return Some(AddrBad);
      }
      if split.value.0 == "" {
        return Some(AddrHostRequired);
      }
    } else if u.typ == DIRECT {
    } else if u.typ == SSH {
      r := ValidateSSH(lib, u);
      return;
    } else if u.typ == OPEN_CONNECT {
      r := ValidateOpenConnect(lib, u);
      return;
    } else {
      return Some(TypeUnknown);
    }
    return None;
  }

  method ValidateSSH(lib: Lib, u: Upstream) returns (r: Option<Fault>)
    requires u.typ == SSH
    ensures FirstFault(lib, u, 0, 10, r)
  {
    if u.host == "" {
      return Some(HostRequired);
    }
    if u.port != 0 && (u.port < 1 || u.port > 65535) {
      return Some(PortOutOfRange);
    }
    if u.keyFile == "" && u.identityAgent == "" {
      return Some(KeyRequired);
    }
    if u.hostKey != "" {
      if !HasPrefix(u.hostKey, FINGERPRINT) {
        return Some(HostKeyNotSHA256);
      }
      var sum := lib.decodeBase64(u.hostKey[|FINGERPRINT|..]);
      if sum == None {
        return Some(HostKeyNotBase64);
      }
      if |sum.value| != DIGEST_SIZE {
        return Some(HostKeyLength);
      }
    }
    return None;
  }

  method ValidateOpenConnect(lib: Lib, u: Upstream) returns (r: Option<Fault>)
    requires u.typ == OPEN_CONNECT
    ensures FirstFault(lib, u, 0, 10, r)
  {
    if u.server == "" {
      return Some(ServerRequired);
    }
    var parsed := lib.parseUrl(u.server);
    if parsed == None {
      return Some(ServerBad);
    }
    if parsed.value.0 != "https" || parsed.value.1 == "" {
      return Some(ServerNotHttps);
    }
    if u.protocol != "" && u.protocol !in OPEN_CONNECT_PROTOCOLS {
      return Some(ProtocolUnknown);
    }
    if u.auth == None || u.auth.value.username == "" {
      return Some(UsernameRequired);
    }
    return None;
  }

  lemma {:induction false} EarlierField(fields: seq<Field>, f: Field, i: nat)
    requires i <= |fields| && FieldRank(fields, f) < i
    ensures f in fields[..i]
  {
    if fields[0] != f {
      EarlierField(fields[1..], f, i - 1);
      assert fields[..i] == [fields[0]] + fields[1..][..i - 1];
    }
  }

  lemma {:induction false} FieldRankOf(fields: seq<Field>, i: nat)
    requires i < |fields| && forall j, k :: 0 <= j < k < |fields| ==> fields[j] != fields[k]
    ensures FieldRank(fields, fields[i]) == i
  {
    if i > 0 {
      assert fields[0] != fields[i];
      FieldRankOf(fields[1..], i - 1);
    }
  }

  /** The first field of the list that is set, if any. */
  method FirstSet(u: Upstream, fields: seq<Field>) returns (r: Option<Field>)
    requires forall j, k :: 0 <= j < k < |fields| ==> fields[j] != fields[k]
    ensures r == None <==> forall f :: f in fields ==> !IsSet(u, f)
    ensures r.Some? ==>
      && r.value in fields && IsSet(u, r.value) && FieldRank(fields, r.value) < |fields|
      && forall f :: f in fields && FieldRank(fields, f) < FieldRank(fields, r.value) ==> !IsSet(u, f)
  {
    for i := 0 to |fields|
      invariant forall j :: 0 <= j < i ==> !IsSet(u, fields[j])
    {
      if IsSet(u, fields[i]) {
        FieldRankOf(fields, i);
        forall f | f in fields && FieldRank(fields, f) < i ensures !IsSet(u, f) {
          EarlierField(fields, f, i);
        }
        return Some(fields[i]);
      }
    }
    return None;
  }

  method RejectSSHFields(lib: Lib, u: Upstream) returns (r: Option<Fault>)
    ensures FirstFault(lib, u, 10, 20, r)
  {
    forall f ensures 10 <= FaultRank(f) < 20 <==> f.OnlyForSSH? {
      RankKinds(f);
    }
    if u.typ == SSH {
      return None;
    }
    var field := FirstSet(u, SSH_FIELDS);
    r := if field == None then None else Some(OnlyForSSH(field.value));
  }

  method RejectOpenConnectFields(lib: Lib, u: Upstream) returns (r: Option<Fault>)
    ensures FirstFault(lib, u, 20, 30, r)
  {
    forall f ensures 20 <= FaultRank(f) < 30 <==> f.OnlyForOpenConnect? {
      RankKinds(f);
    }
    if u.typ == OPEN_CONNECT {
      return None;
    }
    var field := FirstSet(u, OPEN_CONNECT_FIELDS);
    r := if field == None then None else Some(OnlyForOpenConnect(field.value));
  }

  /** An upstream that holds a connection or a process. */
  predicate HasConn(u: Upstream) { u.typ == SSH || u.typ == OPEN_CONNECT }

  // ---- what may be wrong with a configuration ----

  datatype Error =
    | ListenRequired
    | ListenBad
    | LogLevelUnknown
    | UpstreamBad(name: string, fault: Fault)
    | MatchRequired(i: nat)
    | PatternBad(i: nat)
    | RuleUpstreamUnknown(i: nat)
    | ListenerListenRequired(i: nat)
    | ListenerListenBad(i: nat)
    | ListenerDuplicate(i: nat)
    | TargetNotAllowed(i: nat)
    | TargetBad(i: nat)
    | TargetHostRequired(i: nat)
    | ListenerTypeUnknown(i: nat)
    | ListenerUpstreamUnknown(i: nat)
    | ViaUnknown(name: string)
    | ViaThroughSSH(name: string)
    | Unreferenced(name: string)

  /** Some rule, listener or via uses the upstream. */
  ghost predicate Referenced(cfg: Config, name: string) {
    || (exists i :: 0 <= i < |cfg.rules| && cfg.rules[i].upstream == name)
    || (exists i :: 0 <= i < |cfg.listeners| && cfg.listeners[i].upstream == name && name != "")
    || (exists n :: n in cfg.upstreams && cfg.upstreams[n].via == name && name != "")
  }

  /** The complaint e applies to cfg. */
  ghost predicate Wrong(cfg: Config, lib: Lib, e: Error) {
    match e
    case ListenRequired => cfg.listen == ""
    case ListenBad => cfg.listen != "" && lib.splitHostPort(cfg.listen) == None
    case LogLevelUnknown => cfg.logLevel !in {"", "debug", "info", "warn", "error"}
    case UpstreamBad(name, fault) => name in cfg.upstreams && Faulty(lib, cfg.upstreams[name], fault)
    case MatchRequired(i) => i < |cfg.rules| && cfg.rules[i].pattern == ""
    case PatternBad(i) => i < |cfg.rules| && PatternWrong(cfg.rules[i].pattern)
    case RuleUpstreamUnknown(i) => i < |cfg.rules| && cfg.rules[i].upstream !in cfg.upstreams
    case ListenerListenRequired(i) => i < |cfg.listeners| && cfg.listeners[i].listen == ""
    case ListenerListenBad(i) =>
      i < |cfg.listeners| && cfg.listeners[i].listen != "" && lib.splitHostPort(cfg.listeners[i].listen) == None
    case ListenerDuplicate(i) =>
      i < |cfg.listeners| && exists j :: 0 <= j < i && cfg.listeners[j].listen == cfg.listeners[i].listen
    case TargetNotAllowed(i) =>
      i < |cfg.listeners| && cfg.listeners[i].typ in {"", SOCKS5} && cfg.listeners[i].target != ""
    case TargetBad(i) =>
      i < |cfg.listeners| && cfg.listeners[i].typ == TCP && lib.splitHostPort(cfg.listeners[i].target) == None
    case TargetHostRequired(i) =>
      && i < |cfg.listeners| && cfg.listeners[i].typ == TCP
      && lib.splitHostPort(cfg.listeners[i].target).Some? && lib.splitHostPort(cfg.listeners[i].target).value.0 == ""
    case ListenerTypeUnknown(i) => i < |cfg.listeners| && cfg.listeners[i].typ !in {"", SOCKS5, TCP}
    case ListenerUpstreamUnknown(i) =>
      i < |cfg.listeners| && cfg.listeners[i].upstream != "" && cfg.listeners[i].upstream !in cfg.upstreams
    case ViaUnknown(name) =>
      name in cfg.upstreams && cfg.upstreams[name].via != "" && cfg.upstreams[name].via !in cfg.upstreams
    case ViaThroughSSH(name) =>
      && name in cfg.upstreams && cfg.upstreams[name].via != "" && cfg.upstreams[name].via in cfg.upstreams
      && cfg.upstreams[cfg.upstreams[name].via].typ == SSH
    case Unreferenced(name) =>
      name in cfg.upstreams && cfg.upstreams[name].typ in {SSH, OPEN_CONNECT} && !Referenced(cfg, name)
  }

  predicate PatternWrong(p: string) {
    Count(p, '*') > 1 || (Count(p, '*') == 1 && !HasPrefix(p, "*."))
  }

  ghost predicate Accepted(cfg: Config, lib: Lib) {
    forall e :: !Wrong(cfg, lib, e)
  }

  /** The order in which Validate looks: the phase of the check, the rule, listener or upstream, the check on
      it. The map is walked in no particular order at first, so that complaints about different upstreams do not
      rank, and later in the order of the sorted names. */
  function Phase(e: Error): nat {
    match e
    case ListenRequired => 0
    case ListenBad => 1
    case LogLevelUnknown => 2
    case UpstreamBad(_, _) => 3
    case ViaUnknown(_) => 6
    case ViaThroughSSH(_) => 6
    case Unreferenced(_) => 7
    case _ => if RuleErrors(e) then 4 else 5
  }

  function Check(e: Error): nat {
    match e
    case PatternBad(_) => 1
    case RuleUpstreamUnknown(_) => 2
    case ListenerListenBad(_) => 1
    case ListenerDuplicate(_) => 2
    case TargetNotAllowed(_) => 3
    case TargetBad(_) => 4
    case TargetHostRequired(_) => 5
    case ListenerTypeUnknown(_) => 6
    case ListenerUpstreamUnknown(_) => 7
    case _ => 0
  }

  /** The position of n in names. */
  function Position(names: seq<string>, n: string): nat {
    if names == [] || names[0] == n then 0 else 1 + Position(names[1..], n)
  }

  /** Where in its phase Validate looks for e. */
  function Rank(names: seq<string>, e: Error): nat {
    if RuleErrors(e) || ListenerErrors(e) then 8 * e.i + Check(e)
    else if e.ViaUnknown? || e.ViaThroughSSH? || e.Unreferenced? then Position(names, e.name)
    else 0
  }

  /** Of two complaints of one phase, Validate looks for a first. */
  predicate Sooner(names: seq<string>, a: Error, b: Error) {
    if a.UpstreamBad? && b.UpstreamBad? then a.name == b.name && FaultRank(a.fault) < FaultRank(b.fault)
    else Rank(names, a) < Rank(names, b)
  }

  predicate Before(names: seq<string>, a: Error, b: Error) {
    Phase(a) < Phase(b) || (Phase(a) == Phase(b) && Sooner(names, a, b))
  }

  /** The complaint e applies, and none that Validate looks for before it. */
  ghost predicate IsFirst(cfg: Config, lib: Lib, names: seq<string>, e: Error) {
    Wrong(cfg, lib, e) && forall e' :: Wrong(cfg, lib, e') ==> !Before(names, e', e)
  }

  /** r is what there is to say about cfg in the given phase: its first complaint, or none. */
  ghost predicate Checked(cfg: Config, lib: Lib, names: seq<string>, phase: nat, r: Option<Error>) {
    match r
    case None => forall e :: Phase(e) == phase ==> !Wrong(cfg, lib, e)
    case Some(e) =>
      && Phase(e) == phase && Wrong(cfg, lib, e)
      && forall e' :: Phase(e') == phase && Sooner(names, e', e) ==> !Wrong(cfg, lib, e')
  }

  /** names lists the upstreams, each once. */
  ghost predicate Lists(names: seq<string>, cfg: Config) {
    && (forall n :: n in names <==> n in cfg.upstreams)
    && (forall i, j :: 0 <= i < j < |names| ==> names[i] != names[j])
  }

  lemma {:induction false} PositionOf(names: seq<string>, i: nat)
    requires i < |names| && forall j, k :: 0 <= j < k < |names| ==> names[j] != names[k]
    ensures Position(names, names[i]) == i
  {
    if i > 0 {
      assert names[0] != names[i];
      PositionOf(names[1..], i - 1);
    }
  }

  /** An earlier position is that of an earlier name. */
  lemma {:induction false} EarlierName(names: seq<string>, n: string, i: nat)
    requires i < |names| && Position(names, n) < i
    ensures n in names[..i]
  {
    if names[0] != n {
      EarlierName(names[1..], n, i - 1);
      assert names[..i] == [names[0]] + names[1..][..i - 1];
    }
  }

  // ---- what is first is unique ----

  lemma {:induction false} OneField(fields: seq<Field>, f: Field, g: Field)
    requires f in fields && g in fields && FieldRank(fields, f) == FieldRank(fields, g)
    ensures f == g
  {
    if fields[0] != f && fields[0] != g {
      OneField(fields[1..], f, g);
    }
  }

  lemma {:induction false} OneName(names: seq<string>, a: string, b: string)
    requires a in names && b in names && Position(names, a) == Position(names, b)
    ensures a == b
  {
    if names[0] != a && names[0] != b {
      OneName(names[1..], a, b);
    }
  }

  /** No two faults of an upstream rank alike. */
  lemma OneFault(lib: Lib, u: Upstream, f: Fault, g: Fault)
    requires Faulty(lib, u, f) && Faulty(lib, u, g) && FaultRank(f) == FaultRank(g)
    ensures f == g
  {
    RankKinds(f);
    RankKinds(g);
    if f.OnlyForSSH? {
      OneField(SSH_FIELDS, f.field, g.field);
    } else if f.OnlyForOpenConnect? {
      OneField(OPEN_CONNECT_FIELDS, f.field, g.field);
    }
  }

  lemma OneOfPhase(cfg: Config, lib: Lib, names: seq<string>, a: Error, b: Error)
    requires Lists(names, cfg) && Wrong(cfg, lib, a) && Wrong(cfg, lib, b) && Phase(a) == Phase(b)
    requires !Sooner(names, a, b) && !Sooner(names, b, a)
    ensures a == b || (a.UpstreamBad? && b.UpstreamBad? && a.name != b.name)
  {
    if a.UpstreamBad? {
      if a.name == b.name {
        OneFault(lib, cfg.upstreams[a.name], a.fault, b.fault);
      }
    } else if a.ViaUnknown? || a.ViaThroughSSH? || a.Unreferenced? {
      OneName(names, a.name, b.name);
    } else if RuleErrors(a) || ListenerErrors(a) {
      assert Check(a) < 8 && Check(b) < 8;
      assert a.i == b.i && Check(a) == Check(b);
    }
  }

  /** Whatever is wrong with a configuration, Validate has only one answer, unless several upstreams are bad. */
  lemma FirstIsUnique(cfg: Config, lib: Lib, names: seq<string>, a: Error, b: Error)
    requires Lists(names, cfg) && IsFirst(cfg, lib, names, a) && IsFirst(cfg, lib, names, b)
    ensures a == b || (a.UpstreamBad? && b.UpstreamBad? && a.name != b.name)
  {
    OneOfPhase(cfg, lib, names, a, b);
  }

  // ---- Validate ----

  /** An upstream complaint, in whatever order the map is walked. */
  method CheckUpstreams(cfg: Config, lib: Lib, ghost names: seq<string>) returns (r: Option<Error>)
    ensures Checked(cfg, lib, names, 3, r)
  {
    var todo := cfg.upstreams.Keys;
    while todo != {}
      invariant todo <= cfg.upstreams.Keys
      invariant forall name, f :: name in cfg.upstreams && name !in todo ==> !Wrong(cfg, lib, UpstreamBad(name, f))
      decreases todo
    {
      var name :| name in todo;
      var fault := ValidateUpstream(lib, cfg.upstreams[name]);
      if fault.Some? {
        return Some(UpstreamBad(name, fault.value));
      }
      todo := todo - {name};
    }
    return None;
  }

  predicate RuleErrors(e: Error) { e.MatchRequired? || e.PatternBad? || e.RuleUpstreamUnknown? }

  method CheckRules(cfg: Config, lib: Lib, ghost names: seq<string>) returns (r: Option<Error>)
    ensures Checked(cfg, lib, names, 4, r)
  {
    for i := 0 to |cfg.rules|
      invariant forall e :: RuleErrors(e) && e.i < i ==> !Wrong(cfg, lib, e)
    {
      var rule := cfg.rules[i];
      if rule.pattern == "" {
        return Some(MatchRequired(i));
      }
      var stars := Count(rule.pattern, '*');
      if stars > 1 || (stars == 1 && !HasPrefix(rule.pattern, "*.")) {
        return Some(PatternBad(i));
      }
      if rule.upstream !in cfg.upstreams {
        return Some(RuleUpstreamUnknown(i));
      }
    }
    return None;
  }

  predicate ListenerErrors(e: Error) {
    e.ListenerListenRequired? || e.ListenerListenBad? || e.ListenerDuplicate? || e.TargetNotAllowed? || e.TargetBad? ||
    e.TargetHostRequired? || e.ListenerTypeUnknown? || e.ListenerUpstreamUnknown?
  }

  /** The body of the listener loop; seen holds the listen addresses of the listeners before i. */
  method CheckListener(cfg: Config, lib: Lib, i: nat, seen: set<string>) returns (r: Option<Error>)
    requires i < |cfg.listeners| && seen == set j | 0 <= j < i :: cfg.listeners[j].listen
    ensures r.Some? ==> ListenerErrors(r.value) && r.value.i == i && Wrong(cfg, lib, r.value)
    ensures r.Some? ==>
      forall e :: ListenerErrors(e) && e.i == i && Check(e) < Check(r.value) ==> !Wrong(cfg, lib, e)
    ensures r == None ==> forall e :: ListenerErrors(e) && e.i == i ==> !Wrong(cfg, lib, e)
  {
    var l := cfg.listeners[i];
    if l.listen == "" {
      return Some(ListenerListenRequired(i));
    }
    if lib.splitHostPort(l.listen) == None {
      return Some(ListenerListenBad(i));
    }
    if l.listen in seen {
      return Some(ListenerDuplicate(i));
    }
    if l.typ == "" || l.typ == SOCKS5 {
      if l.target != "" {
        return Some(TargetNotAllowed(i));
      }
    } else if l.typ == TCP {
      var split := lib.splitHostPort(l.target);
      if split == None {
        return Some(TargetBad(i));
      }
      if split.value.0 == "" {
        return Some(TargetHostRequired(i));
      }
    } else {
      return Some(ListenerTypeUnknown(i));
    }
    if l.upstream != "" && l.upstream !in cfg.upstreams {
      return Some(ListenerUpstreamUnknown(i));
    }
    return None;
  }

  method CheckListeners(cfg: Config, lib: Lib, ghost names: seq<string>)
    returns (r: Option<Error>, referenced: set<string>)
    ensures Checked(cfg, lib, names, 5, r)
    ensures r == None ==>
      forall name :: name in referenced <==>
        name != "" && exists i :: 0 <= i < |cfg.listeners| && cfg.listeners[i].upstream == name
  {
    var seen: set<string> := {};
    referenced := {};
    for i := 0 to |cfg.listeners|
      invariant seen == set j | 0 <= j < i :: cfg.listeners[j].listen
      invariant forall e :: ListenerErrors(e) && e.i < i ==> !Wrong(cfg, lib, e)
      invariant forall name :: name in referenced <==>
        name != "" && exists j :: 0 <= j < i && cfg.listeners[j].upstream == name
    {
      r := CheckListener(cfg, lib, i, seen);
      if r.Some? {
        return;
      }
      seen := seen + {cfg.listeners[i].listen};
      if cfg.listeners[i].upstream != "" {
        referenced := referenced + {cfg.listeners[i].upstream};
      }
    }
    r := None;
  }

  predicate ViaOk(cfg: Config, name: string)
    requires name in cfg.upstreams
  {
    var via := cfg.upstreams[name].via;
    via != "" ==> via in cfg.upstreams && cfg.upstreams[via].typ != SSH
  }

  /** The vias of the given upstreams. */
  function Vias(cfg: Config, names: seq<string>): set<string>
    requires forall n :: n in names ==> n in cfg.upstreams
  {
    set n | n in names && cfg.upstreams[n].via != "" :: cfg.upstreams[n].via
  }

  lemma OneMoreVia(cfg: Config, names: seq<string>, i: nat)
    requires i < |names| && forall n :: n in names ==> n in cfg.upstreams
    ensures
      var via := cfg.upstreams[names[i]].via;
      Vias(cfg, names[..i + 1]) == Vias(cfg, names[..i]) + if via != "" then {via} else {}
  {
    assert names[..i + 1] == names[..i] + [names[i]];
  }

  /** The via of one upstream. */
  method CheckVia(cfg: Config, lib: Lib, name: string) returns (r: Option<Error>)
    requires name in cfg.upstreams
    ensures r == None <==> ViaOk(cfg, name)
    ensures r.Some? ==> Phase(r.value) == 6 && r.value.name == name && Wrong(cfg, lib, r.value)
  {
    var via := cfg.upstreams[name].via;
    if via == "" {
      return None;
    }
    if via !in cfg.upstreams {
      return Some(ViaUnknown(name));
    }
    if cfg.upstreams[via].typ == SSH {
      return Some(ViaThroughSSH(name));
    }
    return None;
  }

  method CheckVias(cfg: Config, lib: Lib, names: seq<string>) returns (r: Option<Error>, referenced: set<string>)
    requires Lists(names, cfg)
    ensures Checked(cfg, lib, names, 6, r)
    ensures r == None ==> referenced == Vias(cfg, names)
  {
    referenced := {};
    for i := 0 to |names|
      invariant forall n :: n in names[..i] ==> ViaOk(cfg, n)
      invariant referenced == Vias(cfg, names[..i])
    {
      r := CheckVia(cfg, lib, names[i]);
      if r.Some? {
        FirstVia(cfg, lib, names, i, r.value);
        return;
      }
      OneMoreVia(cfg, names, i);
      assert names[..i + 1] == names[..i] + [names[i]];
      if cfg.upstreams[names[i]].via != "" {
        referenced := referenced + {cfg.upstreams[names[i]].via};
      }
    }
    assert names[..|names|] == names;
    r := None;
  }

  lemma FirstVia(cfg: Config, lib: Lib, names: seq<string>, i: nat, e: Error)
    requires Lists(names, cfg) && i < |names| && forall n :: n in names[..i] ==> ViaOk(cfg, n)
    requires Phase(e) == 6 && e.name == names[i] && Wrong(cfg, lib, e)
    ensures Checked(cfg, lib, names, 6, Some(e))
  {
    PositionOf(names, i);
    forall e' | Phase(e') == 6 && Sooner(names, e', e) ensures !Wrong(cfg, lib, e') {
      EarlierName(names, e'.name, i);
    }
  }

  method CheckReferenced(cfg: Config, lib: Lib, names: seq<string>, referenced: set<string>) returns (r: Option<Error>)
    requires Lists(names, cfg) && forall name :: name in referenced <==> Referenced(cfg, name)
    ensures Checked(cfg, lib, names, 7, r)
  {
    for i := 0 to |names|
      invariant forall n :: n in names[..i] ==> HasConn(cfg.upstreams[n]) ==> n in referenced
    {
      assert names[..i + 1] == names[..i] + [names[i]];
      if HasConn(cfg.upstreams[names[i]]) && names[i] !in referenced {
        FirstUnreferenced(cfg, lib, names, i, referenced);
        return Some(Unreferenced(names[i]));
      }
    }
    assert names[..|names|] == names;
    return None;
  }

  lemma FirstUnreferenced(cfg: Config, lib: Lib, names: seq<string>, i: nat, referenced: set<string>)
    requires Lists(names, cfg) && forall name :: name in referenced <==> Referenced(cfg, name)
    requires i < |names| && forall n :: n in names[..i] ==> HasConn(cfg.upstreams[n]) ==> n in referenced
    requires HasConn(cfg.upstreams[names[i]]) && names[i] !in referenced
    ensures Checked(cfg, lib, names, 7, Some(Unreferenced(names[i])))
  {
    PositionOf(names, i);
    forall e | Phase(e) == 7 && Sooner(names, e, Unreferenced(names[i])) ensures !Wrong(cfg, lib, e) {
      EarlierName(names, e.name, i);
    }
  }

  /** Nothing is wrong in the phases before the given one. */
  ghost predicate Clean(cfg: Config, lib: Lib, phase: nat) { forall e :: Phase(e) < phase ==> !Wrong(cfg, lib, e) }

  /** A phase settles what is first, or leaves one phase less to go. */
  lemma AfterPhase(cfg: Config, lib: Lib, names: seq<string>, phase: nat, r: Option<Error>)
    requires Clean(cfg, lib, phase) && Checked(cfg, lib, names, phase, r)
    ensures if r.Some? then IsFirst(cfg, lib, names, r.value) else Clean(cfg, lib, phase + 1)
  {
  }

  /** Validate accepts exactly the configurations with which nothing is wrong, and otherwise names what is
      wrong first. names are the sorted names of the upstreams. */
  method Validate(cfg: Config, lib: Lib, names: seq<string>) returns (r: Option<Error>)
    requires Lists(names, cfg)
    ensures r == None <==> Accepted(cfg, lib)
    ensures r.Some? ==> IsFirst(cfg, lib, names, r.value)
  {
    r := CheckOwn(cfg, lib, names);
    if r.Some? {
      return;
    }
    r := CheckUpstreams(cfg, lib, names);
    AfterPhase(cfg, lib, names, 3, r);
    if r.Some? {
      return;
    }
    r := CheckRules(cfg, lib, names);
    AfterPhase(cfg, lib, names, 4, r);
    if r.Some? {
      return;
    }
    var referenced := set i | 0 <= i < |cfg.rules| :: cfg.rules[i].upstream;
    var more: set<string>;
    r, more := CheckListeners(cfg, lib, names);
    AfterPhase(cfg, lib, names, 5, r);
    if r.Some? {
      return;
    }
    referenced := referenced + more;
    r, more := CheckVias(cfg, lib, names);
    AfterPhase(cfg, lib, names, 6, r);
    if r.Some? {
      return;
    }
    referenced := referenced + more;
    r := CheckReferenced(cfg, lib, names, referenced);
    AfterPhase(cfg, lib, names, 7, r);
  }

  /** The checks of the configuration's own fields. */
  method CheckOwn(cfg: Config, lib: Lib, ghost names: seq<string>) returns (r: Option<Error>)
    ensures if r.Some? then IsFirst(cfg, lib, names, r.value) else Clean(cfg, lib, 3)
  {
    if cfg.listen == "" {
      assert Wrong(cfg, lib, ListenRequired);
      return Some(ListenRequired);
    }
    if lib.splitHostPort(cfg.listen) == None {
      assert Wrong(cfg, lib, ListenBad);
      return Some(ListenBad);
    }
    if cfg.logLevel !in {"", "debug", "info", "warn", "error"} {
      assert Wrong(cfg, lib, LogLevelUnknown);
      return Some(LogLevelUnknown);
    }
    return None;
  }
}
