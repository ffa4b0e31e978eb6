/** pkg/upstream/ssh.go: an SSH upstream over a via upstream that has a connection of its own, a VPN. A via
    without one (null here) only carries bytes. */
module SshDialer {
  import opened ConnTypes
  import S = SshClient
  import SM = SshMachine
  import V = VpnClient
  import VM = VpnMachine

  datatype Result = Done(r: SM.Result) | ViaFailed(why: VM.Result)

  class SSHDialer {
    const cli: S.Client
    const via: V.Client?

    constructor (cli: S.Client, via: V.Client?)
      ensures this.cli == cli && this.via == via
    {
      this.cli, this.via := cli, via;
    }

    /** The via is up, as far as its client knows. */
    ghost predicate ViaUp()
      reads this, via, if via == null then null else via.proc
    {
      via != null ==> via.proc != null && via.proc.id in via.undone && via.state == ConnConnected
    }

    /** Brings the via up on demand. */
    method ConnectVia(plan: V.Plan) returns (r: Option<VM.Result>)
      requires V.PlanOk(plan)
      modifies via
      ensures r == None ==> ViaUp()
      ensures
        if via == null then r == None
        else
          var (after, got) := V.GetAlone(old(via.View()), false, old(via.now), plan);
          via.View() == after && r == if got.Addr? then None else Some(got)
    {
      if via == null {
        return None;
      }
      V.AddressMeansProcess(via.View(), false, via.now, plan);
      var got := via.Get(false, via.now, plan);
      return if got.Addr? then None else Some(got);
    }

    /** Up undoes a Down of the via and of the connection, in this order: the SSH client is left alone
        unless the via came up, and no dial of its own starts before. */
    method Up(plan: V.Plan, outcome: S.Dialled) returns (r: Result)
      requires V.PlanOk(plan)
      modifies via, cli
      ensures via != null ==>
        var (after, got) := V.UpAlone(old(via.View()), plan);
        via.View() == after && (r.ViaFailed? <==> !got.Addr?) && (r.ViaFailed? ==> r.why == got)
      ensures
        if r.ViaFailed? then via != null && cli.View() == old(cli.View())
        else (cli.View(), r.r) == S.UpAlone(old(cli.View()), outcome)
      ensures cli.nextCtx != old(cli.nextCtx) ==> ViaUp()
    {
      if via != null {
        V.AddressMeansProcess(via.View().(held := false, clearedAt := Some(via.now)), true, via.now, plan);
        var got := via.Up(plan);
        if !got.Addr? {
          return ViaFailed(got);
        }
      }
      var done := cli.Up(outcome);
      return Done(done);
    }

    /** Dial goes through the same order, on demand. */
    method Dial(plan: V.Plan, dials: bool -> S.Dialled, outcomes: bool -> SM.Outcome) returns (r: Result)
      requires V.PlanOk(plan) && (cli.cli.Some? ==> cli.cli.value < cli.nextConn)
      modifies via, cli
      ensures via != null ==>
        var (after, got) := V.GetAlone(old(via.View()), false, old(via.now), plan);
        via.View() == after && (r.ViaFailed? <==> !got.Addr?) && (r.ViaFailed? ==> r.why == got)
      ensures
        if r.ViaFailed? then via != null && cli.View() == old(cli.View())
        else (cli.View(), r.r) == S.DialContextAlone(old(cli.View()), dials, outcomes)
      ensures r.Done? ==> ViaUp()
      ensures cli.nextCtx != old(cli.nextCtx) ==> ViaUp()
    {
      var failed := ConnectVia(plan);
      if failed.Some? {
        return ViaFailed(failed.value);
      }
      var done, tried := cli.DialContext(dials, outcomes);
      return Done(done);
    }

    /** Down reaches the connection only: the via stays up for its other users. */
    method Down()
      modifies cli
      ensures cli.View() == S.DownAlone(old(cli.View()))
    {
      cli.Down();
    }
  }
}
