/** Configuration, matcher and registry together: every accepted configuration routes every host. */
module Routing {
  import opened ConnTypes
  import opened Config
  import M = Matcher
  import R = Registry

  /** The two checks of a pattern, in Validate and in match.New, agree. */
  lemma RulesAreAccepted(cfg: Config, lib: Lib)
    requires Accepted(cfg, lib)
    ensures M.FirstError(cfg.rules, cfg.upstreams.Keys, 0) == None
  {
    forall i | 0 <= i < |cfg.rules| ensures M.RuleError(cfg.rules, cfg.upstreams.Keys, i) == None {
      assert !Wrong(cfg, lib, MatchRequired(i)) && !Wrong(cfg, lib, PatternBad(i)) &&
        !Wrong(cfg, lib, RuleUpstreamUnknown(i));
    }
    M.FirstErrorIsFirst(cfg.rules, cfg.upstreams.Keys, 0);
  }

  /** In an accepted configuration every ssh upstream with a via got the dialer of that via. */
  lemma ViasAreBuilt(cfg: Config, lib: Lib, r: R.Registry, n: string)
    requires Accepted(cfg, lib) && r.Built(cfg) && r.byName.Keys == cfg.upstreams.Keys
    requires n in cfg.upstreams
    ensures cfg.upstreams[n].via == "" ==> r.byName[n].via == null
    ensures cfg.upstreams[n].via != "" ==>
      cfg.upstreams[n].via in r.byName && r.byName[n].via == r.byName[cfg.upstreams[n].via] && r.byName[n].typ == SSH
  {
    assert !Wrong(cfg, lib, UpstreamBad(n, OnlyForSSH(ViaField)));
    assert !Wrong(cfg, lib, ViaUnknown(n)) && !Wrong(cfg, lib, ViaThroughSSH(n));
  }

  class Server {
    const matcher: M.Matcher
    const registry: R.Registry

    constructor (matcher: M.Matcher, registry: R.Registry)
      ensures this.matcher == matcher && this.registry == registry
    {
      this.matcher, this.registry := matcher, registry;
    }

    /** The server serves cfg. */
    ghost predicate Serves(cfg: Config)
      reads this, matcher, registry, registry.byName.Values
    {
      && matcher.Valid() && matcher.rules == cfg.rules
      && registry.Built(cfg) && registry.byName.Keys == cfg.upstreams.Keys
    }

    /** The dialer of the first rule that covers the host, or the direct one if there is no rule or its
        upstream is missing. */
    method Pick(host: string) returns (d: R.Dialer)
      requires matcher.Valid()
      ensures
        match M.Scan(matcher.rules, M.Key(host), 0)
        case None => d == registry.direct
        case Some(i) =>
          i < |matcher.rules| &&
          d == if matcher.rules[i].upstream in registry.byName then registry.byName[matcher.rules[i].upstream]
               else registry.direct
    {
      var r := matcher.First(host);
      if r.Some? {
        var found := registry.Get(r.value.upstream);
        if found != null {
          return found;
        }
      }
      return registry.direct;
    }

    /** Pick on a server for an accepted configuration: the dialer of the first covering rule's upstream,
        under that name, and the direct one only if no rule covers the host. */
    method PickServing(cfg: Config, lib: Lib, host: string) returns (d: R.Dialer)
      requires Accepted(cfg, lib) && Serves(cfg)
      ensures
        if exists i :: 0 <= i < |cfg.rules| && M.Covers(cfg.rules[i].pattern, M.Key(host)) then
          exists i ::
            && 0 <= i < |cfg.rules| && M.Covers(cfg.rules[i].pattern, M.Key(host))
            && (forall j :: 0 <= j < i ==> !M.Covers(cfg.rules[j].pattern, M.Key(host)))
            && cfg.rules[i].upstream in cfg.upstreams && d == registry.byName[cfg.rules[i].upstream]
            && d.name == cfg.rules[i].upstream && d.typ == cfg.upstreams[d.name].typ
        else d == registry.direct
    {
      d := Pick(host);
      ghost var best := M.Scan(cfg.rules, M.Key(host), 0);
      M.ScanIsLeast(cfg.rules, M.Key(host), 0, best);
      if best.Some? {
        assert !Wrong(cfg, lib, RuleUpstreamUnknown(best.value));
      }
    }
  }

  /** The way from a configuration to a server. A configuration that is not accepted yields none; for an
      accepted one only a build can fail. */
  method Start(cfg: Config, lib: Lib, names: seq<string>, builds: string -> bool) returns (s: Server?)
    requires Lists(names, cfg)
    ensures s != null <==> Accepted(cfg, lib) && forall n :: n in cfg.upstreams ==> builds(n)
    ensures s != null ==> s.Serves(cfg)
  {
    var bad := Validate(cfg, lib, names);
    if bad.Some? {
      return null;
    }
    ghost var built;
    var registry: R.Registry?;
    registry, built := R.NewRegistry(cfg, builds);
    if registry == null {
      return null;
    }
    RulesAreAccepted(cfg, lib);
    var m := M.New(cfg.rules, cfg.upstreams.Keys);
    if m.Err? {
      return null;
    }
    s := new Server(m.value, registry);
  }
}
