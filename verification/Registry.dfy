/** pkg/upstream/registry.go and the choice of a dialer in pkg/proxy/handler.go. */
module Registry {
  import opened ConnTypes
  import opened Config

  /** A dialer of any type; via is the dialer that carries an ssh upstream's connection. */
  class Dialer {
    const name: string
    const typ: string
    const via: Dialer?
    var closed: bool

    constructor (name: string, typ: string, via: Dialer?)
      ensures this.name == name && this.typ == typ && this.via == via && !closed
    {
      this.name, this.typ, this.via, closed := name, typ, via, false;
    }

    /** The types that have a Close. */
    predicate Closable() { typ == SSH || typ == OPEN_CONNECT }
  }

  class Registry {
    var byName: map<string, Dialer>
    const direct: Dialer

    constructor ()
      ensures byName == map[] && fresh(direct) && direct.typ == DIRECT
    {
      byName := map[];
      direct := new Dialer("direct", DIRECT, null);
    }

    /** The dialers built so far are those of configured upstreams, each ssh one over the very dialer that
        the registry holds for its via. A via that is itself an ssh upstream, which no accepted
        configuration has, may have been built too late. */
    ghost predicate Built(cfg: Config)
      reads this, byName.Values
    {
      && byName.Keys <= cfg.upstreams.Keys
      && forall n :: n in byName ==>
           && byName[n].name == n && byName[n].typ == cfg.upstreams[n].typ && !byName[n].closed
           && ViaRight(cfg, n)
    }

    ghost predicate ViaRight(cfg: Config, n: string)
      requires n in byName && n in cfg.upstreams
      reads this
    {
      var via := cfg.upstreams[n].via;
      if cfg.upstreams[n].typ != SSH || via == "" || via !in cfg.upstreams then byName[n].via == null
      else if cfg.upstreams[via].typ != SSH then via in byName && byName[n].via == byName[via]
      else byName[n].via == null || (via in byName && byName[n].via == byName[via])
    }

    /** What build passes to an ssh upstream; the zero Dialer for a via that has not been built. */
    function ViaDialer(u: Upstream): Dialer?
      reads this
    {
      if u.typ == SSH && u.via != "" && u.via in byName then byName[u.via] else null
    }

    method Close()
      modifies byName.Values
      ensures forall d :: d in byName.Values ==> d.closed == (old(d.closed) || d.typ in {SSH, OPEN_CONNECT})
    {
      var todo := byName.Keys;
      while todo != {}
        invariant todo <= byName.Keys
        invariant forall d :: d in byName.Values ==>
          d.closed == (old(d.closed) || (d.Closable() && exists n :: n in byName && n !in todo && byName[n] == d))
        decreases todo
      {
        var n :| n in todo;
        if byName[n].Closable() {
          byName[n].closed := true;
        }
        todo := todo - {n};
      }
    }

    method Get(name: string) returns (d: Dialer?)
      ensures d == if name in byName then byName[name] else null
    {
      d := if name in byName then byName[name] else null;
    }
  }

  predicate InPass(u: Upstream, sshPass: bool) { (u.typ == SSH) == sshPass }

  function PassNames(cfg: Config, sshPass: bool): set<string> {
    set n | n in cfg.upstreams && InPass(cfg.upstreams[n], sshPass)
  }

  /** One upstream of a pass. */
  method Build(cfg: Config, r: Registry, name: string)
    requires name in cfg.upstreams && name !in r.byName
    requires r.Built(cfg) && (cfg.upstreams[name].typ == SSH ==> PassNames(cfg, false) <= r.byName.Keys)
    modifies r`byName
    ensures r.Built(cfg) && r.byName.Keys == old(r.byName.Keys) + {name}
    ensures fresh(r.byName.Values - old(r.byName.Values))
  {
    var d := new Dialer(name, cfg.upstreams[name].typ, r.ViaDialer(cfg.upstreams[name]));
    ghost var was := r.byName;
    r.byName := r.byName[name := d];
    assert forall n :: n in was ==> r.byName[n] == was[n];
    assert r.ViaRight(cfg, name);
  }

  /** One pass over the map, in any order. */
  method Pass(cfg: Config, builds: string -> bool, r: Registry, sshPass: bool) returns (failed: Option<string>)
    requires r.Built(cfg) && r.byName.Keys == if sshPass then PassNames(cfg, false) else {}
    modifies r`byName
    ensures r.Built(cfg)
    ensures
      if failed == None then
        && r.byName.Keys == old(r.byName.Keys) + PassNames(cfg, sshPass)
        && forall n :: n in PassNames(cfg, sshPass) ==> builds(n)
      else failed.value in PassNames(cfg, sshPass) && failed.value !in r.byName && !builds(failed.value)
    ensures fresh(r.byName.Values - old(r.byName.Values))
  {
    var todo := cfg.upstreams.Keys;
    while todo != {}
      invariant todo <= cfg.upstreams.Keys
      invariant r.Built(cfg) && r.byName.Keys == old(r.byName.Keys) + (PassNames(cfg, sshPass) - todo)
      invariant forall n :: n in PassNames(cfg, sshPass) && n !in todo ==> builds(n)
      invariant fresh(r.byName.Values - old(r.byName.Values))
      decreases todo
    {
      var name :| name in todo;
      if InPass(cfg.upstreams[name], sshPass) {
        if !builds(name) {
          return Some(name);
        }
        Build(cfg, r, name);
      }
      todo := todo - {name};
    }
    failed := None;
  }

  /** Succeeds exactly if every upstream can be built, and then holds exactly the configured names. When a
      build fails, every dialer built so far that has a Close is closed; they are handed out as a ghost. */
  method NewRegistry(cfg: Config, builds: string -> bool) returns (r: Registry?, ghost built: map<string, Dialer>)
    ensures r != null <==> forall n :: n in cfg.upstreams ==> builds(n)
    ensures r != null ==> fresh(r) && fresh(r.byName.Values) && r.Built(cfg) && r.byName.Keys == cfg.upstreams.Keys
    ensures r == null ==>
      && fresh(built.Values) && built.Keys <= cfg.upstreams.Keys
      && (forall n :: n in built ==> built[n].name == n && (built[n].typ in {SSH, OPEN_CONNECT} ==> built[n].closed))
      && exists n :: n in cfg.upstreams && n !in built && !builds(n)
  {
    var reg := new Registry();
    var failed := Pass(cfg, builds, reg, false);
    if failed == None {
      failed := Pass(cfg, builds, reg, true);
    }
    built := reg.byName;
    assert fresh(built.Values);
    if failed.Some? {
      reg.Close();
      assert forall n :: n in built ==> built[n] in built.Values;
      return null, built;
    }
    r := reg;
  }
}
