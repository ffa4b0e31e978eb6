/** DisconnectUpstream and downDependents of internal/menubar/controller.go: how far a disconnect reaches. */
module Disconnect {
  import opened ConnTypes
  import M = Matcher
  import opened Config
  import T = TunnelMachine
  import TunnelRuns
  import S = SshMachine
  import SshRuns
  import V = VpnMachine
  import VpnRuns

  /** The ssh and openconnect upstreams. */
  function ConnNames(cfg: Config): set<string> {
    set n | n in cfg.upstreams && HasConn(cfg.upstreams[n])
  }

  /** The connection upstreams that name the given one as their via. */
  function Dependents(cfg: Config, name: string): set<string> {
    set n | n in ConnNames(cfg) && cfg.upstreams[n].via == name
  }

  class Controller {
    const cfg: Config
    var running: bool
    // the upstreams whose last call was Down
    var held: set<string>

    constructor (cfg: Config)
      ensures this.cfg == cfg && running && held == {}
    {
      this.cfg, running, held := cfg, true, {};
    }

    method DownDependents(name: string)
      modifies `held
      ensures held == old(held) + Dependents(cfg, name)
    {
      var ups: set<string> := {};
      var todo := ConnNames(cfg);
      while todo != {}
        invariant todo <= ConnNames(cfg)
        invariant ups == Dependents(cfg, name) - todo
        decreases todo
      {
        var n :| n in todo;
        todo := todo - {n};
        if cfg.upstreams[n].via == name {
          ups := ups + {n};
        }
      }
      while ups != {}
        invariant held + ups == old(held) + Dependents(cfg, name)
        decreases ups
      {
        var n :| n in ups;
        held := held + {n};
        ups := ups - {n};
      }
    }

    /** Fails, and changes nothing, unless the controller runs and the upstream has a connection. */
    method DisconnectUpstream(name: string) returns (ok: bool)
      modifies `held
      ensures ok <==> running && name in ConnNames(cfg)
      ensures held == if ok then old(held) + Downed(cfg, name) else old(held)
    {
      if !running || name !in cfg.upstreams || !HasConn(cfg.upstreams[name]) {
        return false;
      }
      held := held + {name};
      DownDependents(name);
      return true;
    }

    /** A connection that went down on its own takes its dependents along, but is not held itself. */
    method UpstreamDropped(name: string)
      modifies `held
      ensures held == if running then old(held) + Dependents(cfg, name) else old(held)
    {
      if running {
        DownDependents(name);
      }
    }
  }

  /** What a disconnect holds down. */
  function Downed(cfg: Config, name: string): set<string> {
    {name} + Dependents(cfg, name)
  }

  // ---- the via relation ----

  /** The upstream k via steps away from n. */
  function ViaChain(cfg: Config, n: string, k: nat): Option<string> {
    if k == 0 then Some(n)
    else
      var m := ViaChain(cfg, n, k - 1);
      if m.Some? && m.value in cfg.upstreams && cfg.upstreams[m.value].via != "" then Some(cfg.upstreams[m.value].via)
      else None
  }

  /** n reaches its target through the given one, directly or over further vias. */
  ghost predicate Reaches(cfg: Config, n: string, target: string) {
    exists k: nat :: ViaChain(cfg, n, k) == Some(target)
  }

  /** Only ssh upstreams have a via, and it is no ssh upstream. */
  lemma ViaIsShallow(cfg: Config, lib: Lib, n: string)
    requires Accepted(cfg, lib) && n in cfg.upstreams && cfg.upstreams[n].via != ""
    ensures cfg.upstreams[n].typ == SSH
    ensures cfg.upstreams[n].via in cfg.upstreams && cfg.upstreams[cfg.upstreams[n].via].via == ""
  {
    var via := cfg.upstreams[n].via;
    assert !Wrong(cfg, lib, UpstreamBad(n, OnlyForSSH(ViaField)));
    assert !Wrong(cfg, lib, UpstreamBad(via, OnlyForSSH(ViaField)));
    assert !Wrong(cfg, lib, ViaUnknown(n)) && !Wrong(cfg, lib, ViaThroughSSH(n));
  }

  /** In an accepted configuration no via chain has two links. */
  lemma {:induction false} NoLongChain(cfg: Config, lib: Lib, n: string, k: nat)
    requires Accepted(cfg, lib) && n in cfg.upstreams && k >= 2
    ensures ViaChain(cfg, n, k) == None
  {
    if k > 2 {
      NoLongChain(cfg, lib, n, k - 1);
    } else if ViaChain(cfg, n, 1).Some? {
      assert ViaChain(cfg, n, 0) == Some(n);
      ViaIsShallow(cfg, lib, n);
    }
  }

  /** Some connection upstream other than the named one has the name "" as its via, that is, no via. */
  ghost predicate CatchesBystanders(cfg: Config, name: string) {
    name == "" && exists n :: n in ConnNames(cfg) && n != "" && cfg.upstreams[n].via == ""
  }

  /** A disconnect holds down exactly the upstreams whose via chain leads to the named one, unless that
      one has the empty name: then it takes every connection upstream without a via along. */
  lemma DisconnectIsClosure(cfg: Config, lib: Lib, name: string)
    requires Accepted(cfg, lib) && name in ConnNames(cfg)
    ensures (forall n :: n in Downed(cfg, name) <==> n in cfg.upstreams && Reaches(cfg, n, name)) <==>
      !CatchesBystanders(cfg, name)
  {
    forall n | n in cfg.upstreams
      ensures Reaches(cfg, n, name) <==> n == name || (name != "" && cfg.upstreams[n].via == name)
      ensures name != "" && cfg.upstreams[n].via == name ==> HasConn(cfg.upstreams[n])
    {
      ReachesIsOneStep(cfg, lib, n, name);
      if cfg.upstreams[n].via != "" {
        ViaIsShallow(cfg, lib, n);
      }
    }
    if CatchesBystanders(cfg, name) {
      var n :| n in ConnNames(cfg) && n != "" && cfg.upstreams[n].via == "";
      assert n in Downed(cfg, name) && !Reaches(cfg, n, name);
    }
  }

  lemma ReachesIsOneStep(cfg: Config, lib: Lib, n: string, name: string)
    requires Accepted(cfg, lib) && n in cfg.upstreams
    ensures Reaches(cfg, n, name) <==> n == name || (name != "" && cfg.upstreams[n].via == name)
  {
    assert ViaChain(cfg, n, 0) == Some(n);
    assert ViaChain(cfg, n, 1) == if cfg.upstreams[n].via != "" then Some(cfg.upstreams[n].via) else None;
    if k: nat :| ViaChain(cfg, n, k) == Some(name) {
      if k >= 2 {
        NoLongChain(cfg, lib, n, k);
      }
    }
  }

  // ---- what becomes of the tunnels ----

  /** A client, at state now of a run of its protocol: Down down set held at the time at, and left its critical
      section with event end. */
  datatype Client =
    | Ssh(sshRun: SshRuns.Run, sshDown: S.Tid, at: nat, end: nat, now: nat)
    | Vpn(vpnRun: VpnRuns.Run, vpnDown: V.Tid, at: nat, end: nat, now: nat)

  /** That Down still holds: no Up and no Close has come since. */
  ghost predicate StillDown(c: Client) {
    match c
    case Ssh(run, down, at, end, now) => SshRuns.Valid(run) && SshRuns.HeldDown(run, down, at, end, now)
    case Vpn(run, down, at, end, now) => VpnRuns.Valid(run) && VpnRuns.HeldDown(run, down, at, end, now)
  }

  /** What State reports. */
  ghost function StateOf(c: Client): ConnState
    requires StillDown(c)
  {
    match c
    case Ssh(run, _, _, _, now) => run.states[now].sh.state
    case Vpn(run, _, _, _, now) => run.states[now].sh.state
  }

  lemma StillDownIsUnknown(c: Client)
    requires StillDown(c)
    ensures StateOf(c).ConnUnknown?
  {
    match c
    case Ssh(run, down, at, end, now) => SshRuns.DownIsDurable(run, down, at, end, now);
    case Vpn(run, down, at, end, now) => VpnRuns.DownIsDurable(run, down, at, end, now);
  }

  /** Once the syncs have drained, a tunnel that is pinned to the disconnected upstream, or to one that reaches
      its bastion through it, does not listen, as long as the Downs of the disconnect still hold. */
  lemma DisconnectUnbinds(cfg: Config, lib: Lib, name: string, r: TunnelRuns.Run, i: nat, clients: map<string, Client>,
      n: T.Name)
    requires Accepted(cfg, lib) && name in ConnNames(cfg) && !CatchesBystanders(cfg, name)
    requires TunnelRuns.Valid(r) && i < |r.states| && n in r.states[i].sh.tunnels
    requires TunnelRuns.QuietFor(r.states[i], n) && forall k :: 0 <= k < i ==> !TunnelRuns.RacyStop(r, k, n)
    requires forall u :: u in Downed(cfg, name) && u in r.states[i].sh.states ==>
      u in clients && StillDown(clients[u]) && r.states[i].sh.states[u] == StateOf(clients[u])
    requires
      var u := r.states[i].sh.tunnels[n].upstream;
      u in cfg.upstreams && Reaches(cfg, u, name)
    ensures r.states[i].sh.tunnels[n].gen == None
  {
    DisconnectIsClosure(cfg, lib, name);
    var sh := r.states[i].sh;
    var u := sh.tunnels[n].upstream;
    assert u in Downed(cfg, name);
    if u in sh.states {
      StillDownIsUnknown(clients[u]);
    }
    assert !T.Up(sh, sh.tunnels[n]);
    TunnelRuns.DisconnectedIsUnbound(r, i, n);
  }

  // ---- the empty name ----

  const VPN := Upstream(OPEN_CONNECT, "", "", "", Some(Auth("me", "")), "", 0, "", "", "", "", "", "",
                        "https://vpn", "", "", false)

  const LENIENT := Lib(_ => Some(("h", "1")), _ => Some(("https", "h")), _ => None)

  /** Two unrelated VPNs, one of which has the empty name. */
  const UNNAMED := Config(":1", "info", map["" := VPN, "b" := VPN], [M.Rule("x", ""), M.Rule("y", "b")], [])

  /** The configuration is accepted, and disconnecting the unnamed VPN takes the other one down. */
  lemma UnnamedTakesAllDown()
    ensures Accepted(UNNAMED, LENIENT)
    ensures "" in ConnNames(UNNAMED) && "b" in Downed(UNNAMED, "") && !Reaches(UNNAMED, "b", "")
  {
    assert UNNAMED.rules[0].upstream == "" && UNNAMED.rules[1].upstream == "b";
    forall e ensures !Wrong(UNNAMED, LENIENT, e) {
      assert forall f :: !Faulty(LENIENT, VPN, f);
    }
    ReachesIsOneStep(UNNAMED, LENIENT, "b", "");
  }
}
